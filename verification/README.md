# deadeye: a verified model

deadeye is a Go daemon that hook clients of a coding assistant talk to. It decides
which model a delegated task should run on, watches the commands, reads and tool
output of every session, and keeps small logs beside each project. This project
models its hardest parts in Dafny and proves what they promise. `dafny verify
dfyconfig.toml` checks everything.

Code that changes state step by step is modelled as methods, loops and classes,
each proved against a function of its inputs or of the old state; what the source
promises is then proved about those functions, over whole runs where there are runs.

| module | what it models |
|---|---|
| `Daemon`, `DaemonOrder` | the start-up, takeover, serving and shutdown protocol over the lockfile and the socket path, as a state machine of any number of processes that step independently and may crash anywhere; files and sockets are inodes |
| `Catalog`, `Ranking`, `Kernel`, `KernelLaws`, `GridSearch` | the model catalog and its validity check, the price ranking that generates it, the routing decision and the grid search it stands for; NaN and the infinities are explicit |
| `Lessons`, `Signals`, `Providers`, `Escalation`, `Overlap` | the threshold that recorded escalations move, the evidence providers that feed the kernel, how a later call grades an earlier recommendation, and what overlapping calls do to that |
| `Keys`, `Sessions`, `SessionLaws`, `DaemonState`, `BashKey`, `Handlers` | the per-session, per-agent table under its mutex, what every field means in terms of the history of its key, the retry key of a Bash command, and the hook handlers that drive the table |
| `Usage`, `Attribution`, `Codemap`, `CodemapLaws` | incremental folds: token totals per message, commits joined to receipts, directory rows and their labels |
| `RawConfig`, `ConfigSet` | configuration documents as objects updated in place, and the command that writes one setting and keeps the others |
| `Diff`, `Notes` | the unified-diff range reader against a printer, and the notes log that is appended to, split and pruned |
| `Text`, `Ordering`, `Floats`, `Sequences`, `Wrappers` | the parts of the Go library the models use |

Where the code does not do what it says, the model keeps the code and says exactly
when it does:

- Two daemons can own the lock (`Daemon.TwoWinners` is such a run, as the comment at
  `cmd/deadeye/daemon.go:169-185` concedes). There is never more
  than one owner in a run if and only if no lockfile is created while a live process owns
  one (`Daemon.OneOwnerIffCreatedAlone`); and the lock path names each live owner's own
  file throughout if and only if no takeover removes a live owner's file
  (`Daemon.ExclusiveIffTakeoversSpare`).
- The same comment says the loser merely idles unreachable. In `Daemon.LoserCutsWinner`
  the loser's Close removes the winner's socket, and a daemon is left serving that no
  client can reach. Every serving daemon stays reachable throughout a run if and only if
  no start-up removes the socket path while a daemon is serving
  (`Daemon.ReachableIffSocketSpared`).
- Raising a complexity can lower the choice in a catalog that passes `Valid` but tags
  only one ceiling (`KernelLaws.OneRoleCanDisorder`); `KernelLaws.RaisingNeverLowers`
  says for exactly which catalogs it cannot.
- More doubt can lower the chosen tier. In a valid catalog with distinct ids it does so if
  and only if evidence below 0.9 loses the bar where the unsure ceiling is a step down:
  below tier 1 in [0.5, 0.75) when tier 1 exists, below the high ceiling otherwise from 0.5
  on (`KernelLaws.HigherBar`, `Lessons.LearningOnlyHardens`). It never adds a downshift, in
  any catalog.
- `Ranking.RankedIsValid` needs the unsure ceiling before the high one only up to equal
  prices, where seed order decides.
- A diff's added line is taken for a file header if and only if its content begins with
  `"++ "` (`Diff.AddedLineSkippedIff`), and a path with a tab or trailing white space
  does not read back (`Diff.PathReadsBack`).
- The comment at `internal/signals/signals.go:35-36` says a threshold at or above 0.8 rules
  out every downshift. By the code only a threshold above it does
  (`Signals.BuiltinsCapConfidence`); at 0.8 itself a downshift is still possible, and
  `Signals.BuiltinsDownshiftIff` says when.
- Splitting a notes file loses text if and only if the file is white space and not
  empty (`Notes.SectionsLoseNothing`); a note whose body holds a heading comes apart
  (`Notes.OnePieceIff`).
- Two session ids can share a key if and only if one extends the other by a NUL
  (`Keys.SessionsCollide`).
- `config set` panics on a file that holds the JSON value null
  (`ConfigSet.ConfigFile.ConfigSet`), since the decoder then leaves a nil map.
- `decideBashPreprocess` drops the retry line it has already charged to the session when
  the rewritten command cannot be merged (`Handlers.Daemon.BashPreprocess`), although its
  comment asks for the line on every return path. The merge fails on an input with a
  number outside float64, such as a field `"timeout": 1e400`: the command is read from it,
  but `MergeToolInput` (`internal/hookio/types.go:137-148`) cannot decode the whole object.
- Two overlapping Agent calls can grade one recommendation twice, although the handler
  clears it so that it is graded once (`Overlap.GradedTwice`). A second look grades it
  again if and only if it asks for more and nothing between the two looks replaced, cleared
  or evicted it (`Overlap.GradedAgainIff`), so only between the first call's look and its
  clear (`Overlap.TwiceOnlyInOverlap`).

## Model

| member | source | states |
|---|---|---|
| `Daemon.BaseKept` | cmd/deadeye/daemon.go:186-263 | every step of every process keeps: live processes have distinct pids and distinct own lockfiles, an owner's file holds its pid once written, and a file judged stale or read back as one's own belongs to no other live owner |
| `Daemon.BaseHolds` | cmd/deadeye/daemon.go:30-63 | those facts hold in every world of every run, the takeover window included |
| `Daemon.NamedKeptIffSpared` | cmd/deadeye/daemon.go:186-206 | a step keeps "the lock path names each live owner's own file" if and only if it does not take over a live owner's file |
| `Daemon.ExclusiveIffTakeoversSpare` | cmd/deadeye/daemon.go:169-206 | over any run, the lock path names every live owner's own file throughout if and only if no takeover removes a live owner's file |
| `Daemon.OneOwnerIffCreatedAlone` | cmd/deadeye/daemon.go:186-206 | over any run, there is never more than one owner if and only if no lockfile is created while a live process owns one |
| `Daemon.JudgedSparesOwners` | cmd/deadeye/daemon.go:244-263 | a takeover that removes the file it judged, or finds none, never takes a live owner's |
| `Daemon.SingleOwner` | cmd/deadeye/daemon.go:186-223 | if every takeover removes the file it judged or none, at most one process owns the lock at any time, the path names its own file, and a release removes only its own |
| `Daemon.ReleaseSparesOthers` | cmd/deadeye/daemon.go:208-223 | even inside the window, a release that removes the file it read never takes another live owner's |
| `Daemon.SocketHeld` | cmd/deadeye/daemon.go:50-63 | as long as no takeover removes a live owner's lockfile, the socket path is free for the process about to listen and is the listener's own while it serves |
| `Daemon.SocketReachable` | cmd/deadeye/daemon.go:50-63 | under the same hypothesis, once Listen has succeeded the path resolves to that daemon's listener until it closes or crashes, and Listen reached under the lock always succeeds in taking the path |
| `Daemon.JudgedRunSpares` | cmd/deadeye/daemon.go:186-206 | a run whose takeovers remove the file they judged, or none, meets that hypothesis |
| `Daemon.ReachableKeptIffSpared` | cmd/deadeye/daemon.go:53-63 | a step keeps every serving daemon reachable if and only if it does not remove the socket path while one is serving |
| `Daemon.ReachableIffSocketSpared` | cmd/deadeye/daemon.go:53-63 | over any run, the window included, every serving daemon is reachable throughout if and only if no start-up removes the socket path while a daemon is serving |
| `Daemon.TwoWinners` | cmd/deadeye/daemon.go:169-185 | a run of eleven steps after which two live processes own the lock; its tenth step is a takeover that removes a live owner's file, not the one it judged |
| `Daemon.LoserCutsWinner` | cmd/deadeye/daemon.go:43-63 | a run of nineteen steps that goes on from the window: the second winner removes the socket path while the first serves, both serve, the first one's Close unlinks the path, and the second is left serving, its own lockfile in place, with no socket path |
| `DaemonOrder.NextSteps` | cmd/deadeye/daemon.go:30-63 | right after any step, its process can take exactly the steps that the source's order allows there, apart from what other processes' answers permit |
| `DaemonOrder.ProgramOrder` | cmd/deadeye/daemon.go:30-63 | over any run and interleaving, every step of a process is one that the order of the source allows after that process's previous step |
| `DaemonOrder.StaysOpen` | cmd/deadeye/daemon.go:30-63 | a step so allowed stays possible until its process moves, whatever the others do, as long as its answer is possible |
| `DaemonOrder.AnsweredProbeStops` | cmd/deadeye/daemon.go:53-55 | over any run, a process whose probe was answered never clears the socket or listens afterwards: it only releases its lock or crashes |
| `DaemonOrder.ClearNeedsSilence` | cmd/deadeye/daemon.go:53-60 | every removal of the socket path comes right after an unanswered probe of the same process |
| `DaemonOrder.LiveJudgementStops` | cmd/deadeye/daemon.go:186-263 | a process that judges the lock live, because its pid runs, the socket answers, or the file is young and not yet readable, takes no further step |
| `DaemonOrder.TakeoverNeedsStale` | cmd/deadeye/daemon.go:186-263 | every takeover comes right after the same process found the lock stale |
| `DaemonOrder.StepEffects` | cmd/deadeye/daemon.go:30-63 | for each step exactly which of the lock path, the socket path and the lockfiles change, and to what |
| `DaemonOrder.ReleaseRemovesOwn` | cmd/deadeye/daemon.go:208-223 | in a run whose takeovers spare live owners, whoever reads its lock on the way out goes on to remove it, and the lock path is free then |
| `DaemonOrder.WholeLife` | cmd/deadeye/daemon.go:30-63 | from a world without a lockfile, one process alone starts up, serves on both paths and leaves neither behind |
| `Catalog.ModelWithRole` | internal/catalog/catalog.go:223-230 | the first model with the role, none when there is none |
| `Catalog.RoleFound` | internal/catalog/catalog.go:223-230 | nothing is found if and only if no model carries the role, and what is found carries it |
| `Catalog.FirstIs` | internal/catalog/catalog.go:147-187 | of several models with one role, tier or id, the scans take the first |
| `Catalog.HighestIsFirst` | internal/catalog/catalog.go:234-244 | of several models on the highest tier in range, the scan takes the first |
| `Catalog.ModelAtOrBelowTier` | internal/catalog/catalog.go:234-244 | the first model of the highest tier in 0..max |
| `Catalog.HighestFound` | internal/catalog/catalog.go:234-244 | what is found is in the catalog, within the bound, and no other model within it is higher |
| `Catalog.ResolveUnsureCeiling` | internal/catalog/catalog.go:209-212 | the tagged model, else the best at tier 1 or below |
| `Catalog.ResolveHighCeiling` | internal/catalog/catalog.go:216-219 | the tagged model, else the best at tier 2 or below |
| `Catalog.ValidRows` | internal/catalog/catalog.go:109-133 | the row loop accepts exactly the catalogs whose rows are each sound and whose tiers and roles do not repeat |
| `Catalog.Valid` | internal/catalog/catalog.go:105-144 | true if and only if there are two models or more, every row is sound, tiers and roles are distinct, tier 0 exists, and the ceilings are in ascending order |
| `Catalog.RoleUnique` | internal/catalog/catalog.go:105-144 | in a catalog with distinct roles the lookup of a model's role finds that model |
| `Kernel.CeilingDecision` | internal/kernel/kernel.go:187-198 | names the given ceiling, or the first model of the highest tier when there is none |
| `Kernel.ModelAtTier` | internal/kernel/kernel.go:200-206 | the first model at the tier, none when there is none |
| `Kernel.Decide` | internal/kernel/kernel.go:98-179 | the loop computes the decision that depends only on whether a NaN occurs, the largest complexity and the smallest confidence |
| `KernelLaws.MaxComplexityIs` | internal/kernel/kernel.go:115-132 | the reading used is the largest complexity, not below 0, and is one of the items' |
| `KernelLaws.MinConfidenceIs` | internal/kernel/kernel.go:115-132 | the reading used is the smallest confidence, not above 1, and is one of the items' |
| `KernelLaws.DecisionTable` | internal/kernel/kernel.go:98-179 | the whole decision item by item with the thresholds written out: NaN or nothing, some item at 0.9 or more, doubt, or the band below 0.25, 0.5, 0.75 that every item lies in |
| `KernelLaws.CeilingsMean` | internal/catalog/catalog.go:205-244 | in a valid catalog each ceiling is the model tagged so, else one of the highest tier up to 1, respectively 2 |
| `KernelLaws.CeilingMissing` | internal/kernel/kernel.go:187-198 | with no ceiling to name, the decision names the first model of the highest tier, and none when no tier is 0 or more |
| `KernelLaws.OrderFree` | internal/kernel/kernel.go:98-179 | evidence that is the same up to order gets the same decision |
| `KernelLaws.NaNRoutesUp` | internal/kernel/kernel.go:117-125 | in a valid catalog any NaN anywhere yields the unsure ceiling at high effort |
| `KernelLaws.BothOrNeitherOrdered` | internal/catalog/catalog.go:105-144 | a valid catalog that tags both ceilings or neither has them in order |
| `KernelLaws.ChoiceTierIs` | internal/kernel/kernel.go:134-179 | the tier of the model chosen, found again by its id, is the one the bands and the ceilings name |
| `KernelLaws.RaisingNeverLowers` | internal/kernel/kernel.go:98-179 | raising complexities never lowers tier or effort, for every evidence and threshold, if and only if the high ceiling is not below the unsure one nor below an existing tier 1 |
| `KernelLaws.OneRoleCanDisorder` | internal/catalog/catalog.go:105-144 | a catalog that passes the check and tags only the high ceiling, on its cheapest model, is out of order |
| `KernelLaws.HigherBarAddsNoDownshift` | internal/kernel/kernel.go:134-179 | in any catalog, every downshift a higher threshold allows is one the lower threshold gave too |
| `KernelLaws.HigherBar` | internal/kernel/kernel.go:134-179 | in every valid catalog with distinct ids, a higher threshold lowers the tier if and only if evidence below 0.9 clears the lower one and not the higher and the unsure ceiling lies below tier 1 in [0.5, 0.75) with a tier 1, below the high ceiling otherwise from 0.5 on |
| `Ranking.RankSorts` | scripts/gen-catalog.go:90-96 | the ranked table is sorted by blended price and a permutation of the seed |
| `Ranking.RankIsStable` | scripts/gen-catalog.go:92-96 | one row comes before another if and only if it costs less, or as much and was listed first |
| `Ranking.RankedIsValid` | scripts/gen-catalog.go:92-106 | the numbered ranking passes the validity check if and only if the seed has two sound rows or more, each role at most once, and the unsure ceiling ranked before the high one |
| `GridSearch.FloorWinsAlways` | internal/kernel/kernel.go:63-72 | with positive prices and a positive effort weight that never falls, no cell at or above a floor costs less than the floor |
| `GridSearch.GridSearch` | internal/kernel/kernel.go:63-72 | the literal nested loop over tiers and efforts returns the floor's own cell |
| `GridSearch.DownshiftIsArgmin` | internal/kernel/kernel.go:63-81 | whenever Decide downshifts over a ranked catalog, its answer is its band's floor and costs no more than any cell that clears it |
| `GridSearch.DecideByGrid` | internal/kernel/kernel.go:148-168 | the shortcut and the literal loop name the same model and effort |
| `Lessons.AdjustedDownshiftThreshold` | internal/lessons/lessons.go:138-157 | the loop computes the bar as a function of the base and the recent weight of the shape's escalations |
| `Lessons.OrderIndependent` | internal/lessons/lessons.go:138-157 | the order of the recorded outcomes does not matter |
| `Lessons.BarInRange` | internal/lessons/lessons.go:93-157 | the bar stays in [base, 0.8) and a later clock never raises it |
| `Lessons.BarAfter` | internal/lessons/lessons.go:97-157 | recent escalations of the shape with total weight w put the bar w / (w + 3) of the way from the base to 0.8, and at minus infinity when w is -3 |
| `Lessons.OthersLeaveBar` | internal/lessons/lessons.go:138-157 | an outcome of another surface, shape or kind, or older than thirty days, leaves the bar where it is |
| `Lessons.HighBaseStays` | internal/lessons/lessons.go:135-141 | a base of 0.8 or more is returned unchanged |
| `Lessons.OneMoreRaises` | internal/lessons/lessons.go:138-157 | one more escalation of the shape, of any weight, does not lower the bar if and only if its weight is not negative and the total stays on its side of -3, or the total falls from above -3 to below it, or is -3 |
| `Lessons.AppendRaises` | internal/lessons/lessons.go:138-157 | any further outcomes of non-negative weight never lower the bar |
| `Lessons.LearningAddsNoDownshift` | internal/lessons/lessons.go:99-157 | in any catalog, after any further escalations every downshift is one the kernel gave before |
| `Lessons.LearningOnlyHardens` | internal/lessons/lessons.go:99-157 | in every valid catalog with distinct ids, the tier drops exactly where evidence below 0.9 no longer clears the bar and the unsure ceiling is a step down |
| `Signals.AssessAll` | internal/signals/signals.go:85-108 | the evidence is what the providers returned plus one unknown item when a provider that is not quiet failed |
| `Signals.QuietSkipIsInvisible` | internal/signals/signals.go:60-108 | a quiet provider that fails leaves the evidence exactly as without it |
| `Signals.GapsAre` | internal/signals/signals.go:85-108 | exactly the failures of providers that are not quiet are gaps |
| `Signals.DownshiftNeeds` | internal/kernel/kernel.go:98-179 | a downshift happens if and only if every item clears the bar and lies below 0.75, none is NaN, and the band's tier exists |
| `Signals.GapBlocksDownshift` | internal/signals/signals.go:85-108 | with a gap and a threshold above 0 there is no downshift |
| `Signals.GapDecision` | internal/signals/signals.go:85-108 | with a gap and a threshold above 0 the decision is the unsure ceiling at high effort, or the high ceiling when some provider reads 0.9 or more |
| `Signals.BuiltinsCapConfidence` | internal/signals/signals.go:28-44 | the built-in evidence never has minimum confidence above 0.8, so a threshold above 0.8 rules out every downshift |
| `Signals.LowestIs` | internal/signals/providers.go:51-416 | the minimum confidence of the built-in evidence: 0 with a gap, else 0.2 for a vague or short unanchored prompt, 0.35 with strong or vague words, 0.5 unanchored, 0.8 otherwise |
| `Signals.BuiltinsDownshiftIff` | internal/signals/providers.go:51-416 | for every bar, NaN and the infinities included, the built-in providers allow a downshift if and only if the bar is at most their lowest confidence, the prompt scores below 0.75, and it names at most 8 files with at most 10 recent commits |
| `Signals.CountsInBands` | internal/signals/providers.go:134-227 | which of the kernel's bands a number of files or of recent commits falls in |
| `Signals.TestsLower` | internal/signals/providers.go:231-249 | more tested files strictly lower the reading, from 0.6 with none to 0.1 with all |
| `Signals.PromptReading` | internal/signals/providers.go:51-126 | the prompt's score as the capped weighted sum of hits, question marks and length, and its two confidences |
| `Providers.AssessPromptShape` | internal/signals/providers.go:51-126 | the three passes over the word lists compute the score and confidence that `Signals` states from the number of hits |
| `Providers.AssessTestPresence` | internal/signals/providers.go:231-249 | the loop over files computes the reading from the share with an adjacent test |
| `Providers.AssessTaskSpecificity` | internal/signals/providers.go:334-416 | full confidence if and only if some word anchors the prompt to a tracked file, the lowest for a vague phrase or fewer than six words |
| `Escalation.Router.FamilyToAnyModelID` | cmd/deadeye/lessons.go:105-112 | the id of the first model of the family, empty when there is none |
| `Escalation.Router.CheckEscalation` | cmd/deadeye/lessons.go:59-100 | records the graded recommendation and clears it, or leaves the state reading as it was |
| `Escalation.Router.DecideAgentRouting` | cmd/deadeye/decide.go:441-530 | the outcomes and the whole table after one Agent call, as functions of the table before |
| `Escalation.UnsetStores` | cmd/deadeye/decide.go:482-530 | a call with no model asked for stores the kernel's decision with the tier of the first model of that id, and grades nothing |
| `Escalation.AskedGrades` | cmd/deadeye/lessons.go:59-112 | a call that asks for a family records and forgets the stored recommendation if and only if the shape is the same and the first model of the family is of a higher tier |
| `Escalation.UnknownFamily` | cmd/deadeye/lessons.go:63-90 | a family the catalog lacks grades nothing, and with routing off the call changes nothing |
| `Escalation.CallNotes` | cmd/deadeye/decide.go:495-530 | the call notes the kernel's model under its own id, counts one decision, two when it grades, and leaves every other session alone |
| `Escalation.StoredIsInPlay` | cmd/deadeye/state.go:263-282 | after any run the stored recommendation is the one that some call made and nothing later replaced, graded or evicted, and there is none exactly when there is no such call |
| `Escalation.EscalationIff` | cmd/deadeye/lessons.go:59-100 | a call records an escalation if and only if an earlier call of the session left the model unset, its recommendation is still in play, the shapes agree and the tier asked for is higher |
| `Escalation.GradedOnce` | cmd/deadeye/decide.go:482-494 | recorded escalations map one-to-one to earlier calls with model unset: same session and shape, that call's model, a strictly higher tier, no recommendation graded twice, when calls are handled one at a time |
| `Overlap.CallIsItsSteps` | cmd/deadeye/decide.go:482-530 | one Agent call handled without interruption is its single steps on the state, look, clear, recommend and the rest |
| `Overlap.StoredStands` | cmd/deadeye/state.go:263-282 | under any interleaving of such steps, what is stored is the recommendation that nothing has replaced, cleared or evicted |
| `Overlap.GradedAgainIff` | cmd/deadeye/lessons.go:59-100 | after one look graded a recommendation, a later look grades it again if and only if it asks for more of the same kind in the same session and nothing between them replaced, cleared or evicted it |
| `Overlap.TwiceOnlyInOverlap` | cmd/deadeye/lessons.go:63-66 | so the second look falls between the first call's look and its clear |
| `Overlap.GradedTwice` | cmd/deadeye/lessons.go:59-100 | with any two models, two overlapping calls that ask for the dearer one both grade the same recommendation |
| `Keys.KeyBelongs` | cmd/deadeye/state.go:96-103 | for NUL-free ids a key counts for a session if and only if it was made for it, even when one id is a prefix of another |
| `Keys.AgentKeyInjective` | cmd/deadeye/state.go:96-103 | for NUL-free session ids, equal keys come from equal sessions and agents |
| `Keys.SessionsCollide` | cmd/deadeye/state.go:96-103 | without that hypothesis, two sessions share a key if and only if one id extends the other by a NUL |
| `Sessions.StateIsOwnHistory` | cmd/deadeye/state.go:65-129 | whatever other keys do in between, a key's state is the replay of its own operations since its last eviction |
| `Sessions.OthersUntouched` | cmd/deadeye/state.go:116-129 | an operation under one key leaves every other key's state as it was |
| `SessionLaws.StreakFromHistory` | cmd/deadeye/state.go:356-377 | the exploration streak counts the completions since the last reset |
| `SessionLaws.ArrivalsFromHistory` | cmd/deadeye/state.go:320-354 | the arrival bytes are the sum since the last reset |
| `SessionLaws.AdvisedFromHistory` | cmd/deadeye/state.go:330-354 | the compact flag says whether some check of the current cycle found its threshold reached |
| `SessionLaws.BashFromHistory` | cmd/deadeye/state.go:401-436 | the retry count is the length of the trailing run of one non-empty key since the last edit |
| `SessionLaws.BashAnswer` | cmd/deadeye/state.go:401-424 | over any trace, a command is flagged if and only if it is the previous one, no edit between, at most 30 s later, and its count is the run it ends |
| `SessionLaws.ReadsFromHistory` | cmd/deadeye/state.go:284-300 | the stored mtime of a path is that of its last read |
| `SessionLaws.TagsFromHistory` | cmd/deadeye/state.go:170-184 | a tag is stored if and only if the history suggests it |
| `SessionLaws.SavingsFromHistory` | cmd/deadeye/state.go:188-203 | the savings total is the sum over the rewrites of the history |
| `SessionLaws.ShownFromHistory` | cmd/deadeye/state.go:211-224 | the stored last-shown total is the largest one a Stop has shown |
| `SessionLaws.RewritesFromHistory` | cmd/deadeye/state.go:438-457 | what is pending for a command is the rule noted last and not measured since |
| `SessionLaws.FetchedFromHistory` | cmd/deadeye/state.go:379-393 | a URL is stored if and only if the history fetches it |
| `SessionLaws.CountsFromHistory` | cmd/deadeye/state.go:188-203 | the two counters count the records and the rewrite records of the history |
| `SessionLaws.AgentsFromHistory` | cmd/deadeye/state.go:459-487 | what is pending for an Agent call is the model noted last and not taken since, or nothing; nothing is lost while at most 256 were noted |
| `SessionLaws.ReadAnswer` | cmd/deadeye/state.go:284-300 | over any trace, a read is an unchanged repeat if and only if the last read of that path under the key saw the same mtime |
| `SessionLaws.FetchAnswer` | cmd/deadeye/state.go:379-393 | over any trace, a fetch is a repeat if and only if the key fetched the URL before |
| `SessionLaws.AgentAnswer` | cmd/deadeye/state.go:478-487 | over any trace, taking an Agent call's model answers with the one noted last and not taken since, up to the bound |
| `SessionLaws.RewriteAnswer` | cmd/deadeye/state.go:447-457 | over any trace, taking a rewrite answers with the rule noted last for the command and not taken since |
| `SessionLaws.SavingsAnswer` | cmd/deadeye/state.go:211-224 | over any trace, a Stop is answered with the savings and rewrites of the history, as new if and only if they exceed every total shown |
| `SessionLaws.SuggestedOnce` | cmd/deadeye/state.go:170-184 | between two evictions no suggestion key fires twice |
| `SessionLaws.SuggestedFirst` | cmd/deadeye/state.go:170-184 | a suggestion fires if and only if the history since the last eviction does not hold it |
| `SessionLaws.CompactFiresIff` | cmd/deadeye/state.go:330-344 | over any trace, a check fires if and only if the bytes of the cycle reach its threshold and no check of the cycle fired before, and it reports exactly those bytes |
| `SessionLaws.CompactOncePerCycle` | cmd/deadeye/state.go:330-354 | compact-timing fires twice only across a reset |
| `SessionLaws.SavingsShownIncrease` | cmd/deadeye/state.go:211-224 | the totals shown at Stop strictly increase |
| `SessionLaws.RewriteMeasuredOnce` | cmd/deadeye/state.go:438-457 | two measurements of one command have a fresh note between them |
| `SessionLaws.PendingAgentsBounded` | cmd/deadeye/state.go:459-487 | under any interleaving at most 256 entries are pending |
| `SessionLaws.EndSessionIsExact` | cmd/deadeye/state.go:534-545 | ending a session removes exactly its own keys and changes no other |
| `SessionLaws.EndAgentIsExact` | cmd/deadeye/state.go:105-112 | ending an agent removes exactly its key, and nothing for the main thread |
| `SessionLaws.SnapshotIsOwnReads` | cmd/deadeye/state.go:302-320 | a path is in a session's snapshot if and only if the session or one of its agents read it and was not evicted since |
| `DaemonState.State.NoteBashCommand` | cmd/deadeye/state.go:401-424 | the table after is the one operation on the table before, and the answer is the one that operation gives |
| `DaemonState.State.ClearLastBash` | cmd/deadeye/state.go:426-436 | forgets the key's command and retry run, nothing else |
| `DaemonState.State.NoteExploreTool` | cmd/deadeye/state.go:356-362 | one more completion under the key |
| `DaemonState.State.ResetExploreStreak` | cmd/deadeye/state.go:364-370 | the key's streak is 0, nothing else changes |
| `DaemonState.State.NoteArrivalBytes` | cmd/deadeye/state.go:320-329 | adds the bytes to the key's cycle |
| `DaemonState.State.ShouldAdviseCompact` | cmd/deadeye/state.go:330-344 | answers and marks the cycle as one atomic operation |
| `DaemonState.State.ResetArrivalTracking` | cmd/deadeye/state.go:346-354 | starts the key's cycle afresh |
| `DaemonState.State.MarkFileRead` | cmd/deadeye/state.go:284-300 | stores the mtime and answers whether it was already there |
| `DaemonState.State.NoteWebFetch` | cmd/deadeye/state.go:379-393 | stores the URL and answers whether it was already there |
| `DaemonState.State.MarkSuggestedIfFirst` | cmd/deadeye/state.go:170-184 | stores the tag and answers whether it is new |
| `DaemonState.State.LogRecord` | cmd/deadeye/state.go:188-203 | counts the record and, for a rewrite, adds its estimated savings; nothing without a session |
| `DaemonState.State.NewSavingsToShow` | cmd/deadeye/state.go:211-224 | answers with the totals and remembers the one shown if it grew |
| `DaemonState.State.NotePendingRewrite` | cmd/deadeye/state.go:438-445 | stores the rule for the rewritten command |
| `DaemonState.State.ConsumePendingRewrite` | cmd/deadeye/state.go:447-457 | returns the rule and forgets it |
| `DaemonState.State.NotePendingAgent` | cmd/deadeye/state.go:459-476 | stores the model, dropping all others first when 256 are held |
| `DaemonState.State.ConsumePendingAgent` | cmd/deadeye/state.go:478-487 | returns the model and forgets it |
| `DaemonState.State.SetLastRouting` | cmd/deadeye/state.go:263-269 | stores the recommendation |
| `DaemonState.State.GetLastRouting` | cmd/deadeye/state.go:271-282 | returns the recommendation; the table reads as before |
| `DaemonState.State.ClearLastRouting` | cmd/deadeye/state.go:547-556 | forgets the recommendation |
| `DaemonState.State.FinishAgent` | cmd/deadeye/state.go:105-112 | removes exactly the agent's key |
| `DaemonState.State.FinishSession` | cmd/deadeye/state.go:534-545 | deleting while walking the keys, in any order, removes exactly the session's |
| `DaemonState.State.ReadFilesSnapshot` | cmd/deadeye/state.go:302-320 | the paths read under the session's keys, each once, ascending |
| `BashKey.NormalizeBashRetryKey` | cmd/deadeye/bashnorm.go:26-45 | in scope if and only if the command has no shell operator and two words or more; the key is the binary and what its arguments add |
| `BashKey.WhatCounts` | cmd/deadeye/bashnorm.go:11-45 | a plain argument counts as itself, an option with a value as its value, a bare flag not at all |
| `BashKey.FlagsAreInvisible` | cmd/deadeye/bashnorm.go:11-45 | a bare flag anywhere among the arguments does not change the key |
| `BashKey.SameKeyIff` | cmd/deadeye/bashnorm.go:11-45 | two commands share a key if and only if they run the same binary on the same targets |
| `Handlers.Daemon.AdviseBash` | cmd/deadeye/decide.go:648-679 | which line a command gets, from the history of the agent's key and of the session's suggestions, and every call made on the state |
| `Handlers.Daemon.BashPreprocess` | cmd/deadeye/decide.go:638-725 | the advice and the rewrite of a command and every call made on the state; the advice is lost exactly when the rewrite cannot be merged |
| `Handlers.Daemon.PostToolUse` | cmd/deadeye/decide.go:890-948 | a command is measured by the rule noted last for it and not measured since; an oversized MCP response is advised on once per tool; every call made on the state |
| `Handlers.Daemon.Stop` | cmd/deadeye/decide.go:278-307 | savings are shown if and only if they exceed every total shown before; compact-timing fires if and only if 300 KiB arrived under the session's own key in this cycle and no check of the cycle fired |
| `Handlers.Daemon.EditStarts` | cmd/deadeye/decide.go:373-379 | an edit ends the agent's retry run and its exploration streak |
| `Handlers.Daemon.DelegateExplore` | cmd/deadeye/decide.go:817-847 | advised if and only if twelve explorations or more are counted since the last reset and the session was not advised before |
| `Handlers.AdviceIsRetryLine` | cmd/deadeye/decide.go:657-670 | the retry advice of a handler that nothing interrupts is a retry line of the trace of single calls |
| `Handlers.RetryAdvisedOnce` | cmd/deadeye/decide.go:657-670 | whatever other connections do, between two handlers or inside one, a target that got the retry line does not get it again before the session is evicted |
| `Handlers.EditSilences` | cmd/deadeye/decide.go:373-379 | right after an edit by the same agent a command gets neither line |
| `Handlers.AdviceMeans` | cmd/deadeye/decide.go:648-679 | the repeat line: the very same command as before, within 30 s and no edit between; the retry line: the third run in a row of one key, not advised before |
| `Handlers.CountsTool` | cmd/deadeye/decide.go:890-948 | a completed Read, Grep or Glob adds one to the agent's streak, any other tool ends it, and every response adds its bytes |
| `Handlers.RewriteNoted` | cmd/deadeye/decide.go:682-725 | a rewrite leaves its rule pending for the new command, and its estimate counts as saved |
| `Handlers.RewriteMeasured` | cmd/deadeye/decide.go:890-948 | once a command has been measured no rule is pending for it |
| `Handlers.SavingsDue` | cmd/deadeye/decide.go:278-307 | the savings line shows all that was saved, when that exceeds every total shown, and not twice |
| `Handlers.CompactIsDue` | cmd/deadeye/decide.go:278-307 | compacting is advised with the bytes of the cycle from 300 KiB on, and not again in that cycle |
| `Handlers.EditResets` | cmd/deadeye/decide.go:373-379 | after an edit no command is there to repeat and the streak is 0 |
| `Usage.Totals.Add` | internal/usage/usage.go:77-82 | adds or takes back each of the four dimensions, in 64-bit arithmetic |
| `Usage.ScanFile` | internal/usage/usage.go:126-153 | folding a file keeps the total equal to the sum over last lines of everything scanned so far, and reports whether the file had a message not seen before |
| `Usage.ScanTranscript` | internal/usage/usage.go:89-92 | one transcript's total, in each dimension the wrapped integer sum over its distinct messages, the model its last assistant line names, and whether it held an assistant line |
| `Usage.ScanProject` | internal/usage/usage.go:99-116 | the total over all transcripts, in each dimension the wrapped integer sum over their distinct messages of what is said last, and the sessions are the files with a message no earlier file has |
| `Usage.SumOfLastAppended` | internal/usage/usage.go:144-150 | one more line changes the sum over last lines by taking back what its message stood at and adding its own |
| `Usage.OneTotalPerMessage` | internal/usage/usage.go:118-125 | the sum over last lines is the sum over the distinct message ids of what is said last about each, in whatever order they are listed |
| `Usage.TotalsAre` | internal/usage/usage.go:77-153 | dimension by dimension, the total kept line by line is the 64-bit wrap of the integer sum of what the last assistant line of each distinct message says |
| `Usage.IntroducesIff` | internal/usage/usage.go:126-153 | a file counts as a session if and only if it holds a message that no earlier transcript of the directory holds |
| `Usage.LastModelIs` | internal/usage/usage.go:136-153 | the model is the one the last identified assistant line that names a model gives |
| `Codemap.ContainerDirs` | internal/codemap/codemap.go:126-146 | exactly the first-level directories without a file of their own, in whatever order the map is walked |
| `Codemap.CountRows` | internal/codemap/codemap.go:148-163 | the two maps hold, for every row and extension, the number of paths that fall in it |
| `Codemap.DominantExt` | internal/codemap/codemap.go:184-198 | for every order of walking the map, the extension that is alone at the top and held by more than half, else nothing |
| `Codemap.DominantIsLabel` | internal/codemap/codemap.go:181-198 | on the counts of a row that is the extension a strict majority of its files carry |
| `Codemap.Group` | internal/codemap/codemap.go:125-179 | the result is the first twenty of the sorted rows: one for each directory that a path falls in, with its count and the label of a strict majority of its files |
| `CodemapLaws.RowsArePlain` | internal/codemap/codemap.go:118-179 | without the intermediate maps: every path's row is there, each row counts its own paths and carries their majority extension, larger rows first, then by name, and the first twenty are kept |
| `CodemapLaws.DeepPathRow` | internal/codemap/codemap.go:100-146 | a path of three parts or more falls in the row of its first two if and only if no listed path is a file directly in its first directory, else in the row of that directory |
| `CodemapLaws.ExtIs` | internal/codemap/codemap.go:148-163 | the extension is what follows the last dot of the last element, the dot included |
| `CodemapLaws.NoExt` | internal/codemap/codemap.go:148-163 | a last element without a dot has no extension |
| `CodemapLaws.LabelIgnoresCase` | internal/codemap/codemap.go:148-163 | extensions that differ only in case get one label, in lower case |
| `CodemapLaws.RowsUnique` | internal/codemap/codemap.go:118-179 | the paths determine the rows |
| `CodemapLaws.OrderFree` | internal/codemap/codemap.go:118-179 | the order in which paths are listed does not matter |
| `CodemapLaws.KeptAreLargest` | internal/codemap/codemap.go:169-177 | each row kept has more files than each row dropped, or as many and a smaller name |
| `CodemapLaws.EveryPathCountedOnce` | internal/codemap/codemap.go:148-167 | every non-empty path falls in exactly one row, and the counts before the cap add up to the non-empty paths |
| `CodemapLaws.NoNesting` | internal/codemap/codemap.go:100-116 | no row's directory lies inside another's |
| `CodemapLaws.OnlyRowAbove` | internal/codemap/codemap.go:100-116 | a directory row contains a path if and only if it is that path's own row |
| `RawConfig.Document.RawGet` | cmd/deadeye/configcmd.go:287-300 | the walk returns what the path leads to |
| `RawConfig.Document.RawSet` | cmd/deadeye/configcmd.go:302-312 | the objects after the in-place walk |
| `RawConfig.StoreShows` | cmd/deadeye/configcmd.go:302-312 | storing in one object of a tree shows at the field's path and nowhere else |
| `RawConfig.SetThenGet` | cmd/deadeye/configcmd.go:287-312 | after a write the path reads as written, unrelated paths as before, nothing lies beyond it, objects lead up to it, and the document is still a tree |
| `RawConfig.RunOfWrites` | cmd/deadeye/configcmd.go:287-312 | after any run of writes the last one bearing on a path decides what is read there, and where none bears everything reads as at the start |
| `ConfigSet.FindTunable` | cmd/deadeye/configcmd.go:70-77 | the first setting with the key |
| `ConfigSet.ConfigFile.ConfigSet` | cmd/deadeye/configcmd.go:140-206 | the file after and the outcome, case by case; any outcome but success leaves the file as it was |
| `ConfigSet.FirstSetting` | cmd/deadeye/configcmd.go:140-206 | where the file was absent or blank, it then holds the one setting and nothing beside it |
| `ConfigSet.Accepts` | cmd/deadeye/configcmd.go:145-186 | kind by kind, which texts are accepted and what is stored for them |
| `ConfigSet.AcceptsWhole` | cmd/deadeye/configcmd.go:145-186 | a printed whole number is stored as itself when it fits 64 bits, with either sign, and refused beyond |
| `ConfigSet.KeysApart` | cmd/deadeye/configcmd.go:31-63 | no setting's place in the document contains another's |
| `ConfigSet.SettingsIndependent` | cmd/deadeye/configcmd.go:138-206 | over any run of attempts each setting reads as its last valid attempt wrote it, else as at the start |
| `ConfigSet.OthersPreserved` | cmd/deadeye/configcmd.go:138-206 | over any run everything else in the document reads as at the start |
| `ConfigSet.BrokenUntouched` | internal/config/config.go:413-437 | a file that exists and does not load is never written |
| `Attribution.AttributeCommits` | cmd/deadeye/adherence.go:152-186 | the nested loops return the first claim of each commit, in order |
| `Attribution.LogReadsBack` | cmd/deadeye/adherence.go:164-177 | reading a log git printed gives back exactly its commits inside the window, both ends included |
| `Attribution.AttributedOnce` | cmd/deadeye/adherence.go:148-186 | each commit at most once, attributed to the first usable receipt whose log lists it from its start to 43,200 seconds after, and every commit that some receipt so lists is attributed |
| `Attribution.OnlyFullLinesClaim` | cmd/deadeye/adherence.go:164-177 | a log line claims nothing unless it has its three parts, a hash and a time that parses |
| `Diff.AddedRanges` | internal/gitutil/diff.go:39-56 | the loop computes the ranges of the line-by-line scan |
| `Diff.PathReadsBack` | internal/gitutil/diff.go:61-78 | a printed path reads back if and only if it holds no tab and does not end in white space |
| `Diff.HunkReadsBack` | internal/gitutil/diff.go:84-106 | a printed hunk header reads back as its new-side range, none when that side is empty |
| `Diff.ChangePrints` | internal/gitutil/diff.go:31-56 | a zero-context hunk is one the round trip covers if and only if no line it adds begins with "++ ", and its range is [start, start + added - 1], none when it adds nothing |
| `Diff.RoundTrip` | internal/gitutil/diff.go:31-106 | for any printed files and hunks, reading gives per path and in order exactly the range of each hunk with a non-empty new side |
| `Diff.PathsReadBack` | internal/gitutil/diff.go:39-106 | for every path, what is read back is the ranges [start, start + count - 1] of the non-empty hunks of the sections that name it, in order, and the path is a key if and only if there is one |
| `Diff.EndWraps` | internal/gitutil/diff.go:84-106 | the end of a range is a 64-bit sum, which wraps past the largest int |
| `Diff.PrefixesDropped` | internal/gitutil/diff.go:61-78 | one leading a/ or b/ is dropped from a header's path; any other path but /dev/null stays as it is |
| `Diff.AddedLineSkippedIff` | internal/gitutil/diff.go:42-53 | an added line is skipped whatever the scan has found if and only if its content does not begin with "++ " |
| `Notes.SplitSections` | internal/codemap/notes.go:87-101 | the loop computes the chunks cut before each heading |
| `Notes.SectionsLoseNothing` | internal/codemap/notes.go:85-101 | joining the sections gives the input back if and only if it is empty or not all white space |
| `Notes.SplitAgain` | internal/codemap/notes.go:85-101 | joining chunks and splitting again gives the same chunks |
| `Notes.SectionsArePieces` | internal/codemap/notes.go:85-101 | every split yields such chunks: one heading each, at the start, whole lines up to the last |
| `Notes.OnePieceIff` | internal/codemap/notes.go:85-101 | a text stays in one piece if and only if no line after its first is a heading |
| `Notes.PruneKeepsNewest` | internal/codemap/notes.go:68-83 | after a prune the sections are the newest five of before, and pruning again changes nothing |
| `Notes.NotesFile.AppendNote` | internal/codemap/notes.go:32-51 | appends one headed section, or nothing for a blank body |
| `Notes.NoteTextIs` | internal/codemap/notes.go:32-51 | the note is the heading and the body without the white space around it, cut to 2048 characters |
| `Notes.NotesFile.PruneNotes` | internal/codemap/notes.go:68-83 | the file holds the newest five sections joined, or is as it was |
| `Notes.PruneLeavesNewestFive` | internal/codemap/notes.go:32-101 | after any run of appends and prunes from an empty file, a prune leaves exactly the last five notes appended, in order, or all when fewer |

## Left out

- Floating-point rounding: float64 values are reals with explicit NaN and infinities.
- Subprocesses, git, the file system, clocks, regular expressions and JSON encoding: their results are inputs; files and configuration documents are values.
- Notes.NotesFile.AppendNote: the size limit counts code points, not bytes, because strings are sequences of code points.
- Codemap.Group: extensions are lower-cased over ASCII only.
- Providers.AssessPromptShape: the prompt comes trimmed and lower-cased.
- Lessons.AdjustedDownshiftThreshold: the base and the weights are finite.
- The routing judge, over-route sampling and the response texts of the handlers; the decision of an Agent call is an input of `Escalation`.
- `Escalation` handles calls one at a time; `Overlap` covers calls that overlap, for the last recommendation only.
- Handlers.Daemon.BashPreprocess, and the other methods of that class: a handler's calls on the state are taken without interruption; `Handlers.RetryAdvisedOnce` and the laws of `SessionLaws` hold for any interleaving of single calls.
- `Handlers` takes the mute flag, the disabled rules and the matched preprocessing rule as inputs; the Read, WebFetch, plan-gate, security and prompt handlers are not modelled.
- The session flags that one method sets and one reads (injected, pending plan, coder level, native restore, muted), the cached outcomes beyond the recorded escalations, and the log files.
- A session's state is a value in the table rather than a shared record behind a pointer; the mutex makes each method one step, so no other thread sees a half-updated one.
- The seen map of the transcript scanner is passed in and out instead of shared; a line over the scanner's 10 MB limit ends a file and is not modelled.
- Files, insertions and new dependencies of an attributed commit: each is a function of its hash read from git.
- git's quoting of unusual paths, numstat parsing, and the other consumers of diff ranges.
- Package doc comments, touch counts and the rendered text of the code map; the thirty-line head of the notes.
- Ranking of shapes in the lessons report (RecentShapes), other surfaces of the outcome log.
- The stored form of a whole number in config.json: the file holds the value written, not its JSON number.
- The pid and the age of a lockfile are read in one step with the probe of the socket (lockIsStale is one step), and a live owner is assumed to write its pid within ten seconds of creating the file.
- User interface, reports, hooks in TypeScript, fetchers, host dialects, installers and benchmarks.
