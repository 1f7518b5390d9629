# A verified model of captchapi

This project models the parts of captchapi whose correctness is a matter of state and order, and
proves what they are for. `dafny verify dfyconfig.toml` checks everything.

**The trial-boot configuration store** (`ConfigStore.dfy`, `Pruning.dfy`, `Startup.dfy`,
`Lifecycle.dfy`, `Trials.dfy`). Settings live in one table, and every write opens a *generation*: a
snapshot on trial until a process has served with it. `ConfigTables` says what each operation does
to the two tables, the class `ConfigStore` performs it, `Pruning` compares the store with one that
never deletes a generation, and `Lifecycle` and `Trials` are about every run of writes, starts,
confirmations and crashes.

**The reloadable configuration** (`Params.dfy`, `ParamNames.dfy`, `Text.dfy`, `Sources.dfy`,
`TomlFile.dfy`, `Configuration.dfy`, `Resolution.dfy`, `Handle.dfy`, `HandleRuns.dfy`,
`PendingRestart.dfy`, `Restarts.dfy`, `Precedence.dfy`). Seven layers are resolved into one
configuration, each field from the first that gives it; boot fields are pinned to the running
process, live fields are adopted. The published configuration is shown to be a cache of
one resolution over any run of reloads, adoptions and patches, and reading a configuration's own
printed boot values back is shown to change nothing. The states these theorems start from exist:
`PendingRestart.ResolvesWithSecrets` resolves a configuration from nothing but the two required
secrets, and `HandleRuns.FreshIsCoherent` starts a handle from it.

**Administration requests** (`Admin.dfy`, `AdminRuns.dfy`, `RequestEffects.dfy`, `Overlaps.dfy`) tie
the two together: check, dry run, write the table, adopt. Over every sequential run, table, handle and running
configuration stay one; over runs in which requests overlap step by step, `Overlaps` says exactly
when they still agree.

**Sessions** (`Sessions.dfy`, `SessionRuns.dfy`, `SessionBounds.dfy`, `SessionCleanup.dfy`).
Requests interleave on one table, one SQL statement at a time, with no transaction around read,
compare and write. The bounds hold over all interleavings, and one is shown to be tight.

**Small cores**: HMAC over message parts, the solution hash and the image cipher (`Hmac.dfy`,
`SolutionHash.dfy`, `ImageCipher.dfy`), the flip counts and McNemar's exact test on them
(`Flips.dfy`, `McNemar.dfy`), the coverage merger and gate (`Coverage.dfy`), the contact sheet
(`Sheet.dfy`).

Code that changes state step by step is modelled by classes and methods proved against functions on
values; the theorems are about those functions. What comes from outside is a parameter: what the
files hold when they are read, the clock, random ids and nonces, which strings parse as a log
filter, the hash function and the authenticated cipher.

## Where the code and its documentation differ

The model follows the code. The theorems that show a difference are named.

- `src/config/handle.rs:40-44` says the pending-restart list, recomputed on every resolve, answers
  what a restart would change, for every layer. It is the verdict of the last reload or adoption
  on what that found. The running boot values are carried underneath the stack, so a boot value
  whose source has gone away is not listed. A start first undoes a generation still on trial and
  skips a stored layer that does not resolve; it reads the files, and the secret files named on the
  command line (`src/cli.rs:216-222`, `src/restart.rs:97-117`), again. And an override resolves anew
  without recomputing the list (`src/config/handle.rs:338-354`). `Restarts.PendingIsTrueIff` gives the
  exact condition for any next start, `Restarts.PendingOverRunsIff` the same over any run of calls
  from any start, and there is an instance of each failure: `PendingRestart.RemovedPortGoesUnreported`
  (a stored port is removed), `Restarts.TrialGoesUnreported` (one is on trial),
  `Restarts.RotatedSecretGoesUnreported` (a secret file has other contents) and
  `Restarts.EditedFileGoesUnreported` (the configuration file has, and an override has resolved with
  it). Each time nothing is reported pending and the next start runs with another value. The list is
  also what the restart endpoint reports as about to be applied (`src/routes/admin.rs:156-161`).
- `src/routes/admin.rs:253-268` describes the shadowed fields as those a higher layer overrides.
  What is reported is that the last resolve did not find them in the stored layer it was given, so
  the report also names fields which that layer did not hold. `AdminRuns.ShadowedIsTrueIff` is the
  exact condition over every run, and two runs break it: after a start that skipped the stored
  layer, every stored field is reported though nothing stands above it
  (`AdminRuns.ShadowedAtStartIff`, `AdminRuns.SkippedIsReportedShadowed`), and so is a field written
  while a reload was under way with the layer from before
  (`Overlaps.StaleReloadIsReportedShadowed`).
- `src/routes/admin.rs:336-338` validates before writing so that no refused configuration is
  persisted. What is validated has the runtime overrides on top, which a restart does not:
  `AdminRuns.OverrideHidesAMistake` is a layer the dry run accepts and the next start cannot resolve,
  and `AdminRuns.AcceptedBootsIff` says exactly which layers resolve at a later start, whatever it
  finds.
- `docs/API.md:270` and `README.md:120` say a session is deleted after 3 failed attempts, and
  `docs/ARCHITECTURE.md:198` that 3 is the most attempts it gets. The third failure leaves it in
  place; the next validation deletes it (`SessionTables.WrongAnswersAreCounted`). With k requests
  at once, up to max + k - 1 solutions are compared (`SessionRuns.ChecksAreBounded`), and that many
  can be (`SessionBounds.BoundIsReached`); and up to k right answers are accepted, which can happen
  too (`SessionBounds.AcceptancesAreReached`).
- `src/routes/admin.rs:336-363` adopts what it has written, and nothing orders the adoptions of two
  requests like their writes. The handle can end with any of the edits left out, though never out of
  order (`Overlaps.HandleHoldsSomeEdits`); `Overlaps.TwoEditsIff` says when table and handle agree
  afterwards, and in `Overlaps.ReversedAdoptionsDisagree` the table ends with one value and the handle with
  another.
- `src/models/session.rs:81` adds a lifetime cast to a signed number. A lifetime whose expiry does
  not fit the column makes a session that is born expired (`SessionTables.LivesAsAskedIff`).
- `scripts/coverage-report.py:87-93` describes the merge as a maximum over records; since it
  starts from 0, it is the maximum if and only if some record of the line is not negative
  (`Coverage.MaximumIff`), and `Coverage.NegativeCountIsLost` is a line where it is not.
- `src/config/params.rs:353-356` calls the log level boot-only on purpose; its row is live, and the
  model has it live.

## Model

| member | source | states |
|---|---|---|
| ConfigTables.CheckWritable | src/services/config_store.rs:136-154 | a batch is accepted if and only if every field in it names a storable parameter |
| ConfigTables.Honoured | src/services/config_store.rs:90-107 | the rows the stack honours are exactly the stored ones naming a storable parameter, with their values |
| ConfigStore.ConfigStore.Load | src/services/config_store.rs:110-117 | reads exactly the honoured rows and changes nothing |
| ConfigStore.ConfigStore.Check | src/services/config_store.rs:136-154 | finds the first field of a batch that may not be stored |
| ConfigStore.ConfigStore.Open | src/services/config_store.rs:228-254 | appends a pending, untried generation holding the table as it stands, under an id never given out before |
| ConfigStore.ConfigStore.Write | src/services/config_store.rs:160-188 | a batch is stored whole, with a generation of the table after the write, or refused with both tables untouched |
| ConfigStore.ConfigStore.Remove | src/services/config_store.rs:193-210 | removes one row and opens a generation, or reports there was none and does neither |
| ConfigStore.ConfigStore.RemoveAll | src/services/config_store.rs:213-225 | empties the table and opens a generation unless it was empty |
| ConfigStore.ConfigStore.Prepare | src/services/config_store.rs:260-338 | leaves a settled store alone, counts the first trial of a pending generation, and on the second undoes it and restores the last confirmed settings |
| ConfigStore.ConfigStore.Approve | src/services/config_store.rs:346-374 | marks the named generation if it is pending and then drops what is older; otherwise changes nothing |
| Pruning.PruningIsUnobservable | src/services/config_store.rs:346-374 | over every run and every confirmed id, boots, writes and settings are those of a store that keeps every generation for ever |
| Pruning.ConfirmLeavesOnlyNewer | src/services/config_store.rs:356-370 | a confirmed generation becomes the oldest row and exactly the newer rows are kept beside it |
| Startup.ApplyStored | src/config/boot.rs:35-68 | a stored layer that is empty or resolves is applied and its generation may be confirmed; one that does not is skipped in favour of the first pass, with its error, and nothing may be |
| Lifecycle.SettingsAlwaysMatch | src/services/config_store.rs:160-338 | in every reachable world the settings are the newest generation's snapshot, or after a rollback the newest confirmed one or nothing |
| Trials.ConfirmedWasTried | src/main.rs:231-252 | every confirmed generation was the newest at a start that tried it, its settings resolved in that process, and that process reached the confirm delay |
| Trials.WrittenWhileRunningNotConfirmed | src/main.rs:228-235 | a generation opened while a process runs is never confirmed by that process |
| Trials.OneTrialEach | src/services/config_store.rs:285-292 | over any run each generation is put on trial at most once |
| Trials.SecondStartRollsBack | src/services/config_store.rs:294-338 | with nothing written or confirmed after a trial, the next start restores the last confirmed settings |
| Trials.SettledUntilWritten | src/services/config_store.rs:278-283 | once the newest generation is not pending, every start is clean and only a write changes the store |
| Trials.NoWedge | src/services/config_store.rs:260-338 | two starts without a confirmation end on the last confirmed settings, and every later start is clean until somebody writes |
| Trials.WriteIsTriedNext | src/services/config_store.rs:156-254 | a write leaves in the table what it asks for, and unless it was refused or removed nothing the next start puts the result on trial |
| Trials.ConfirmsWhatItBooted | src/main.rs:228-235 | a process means to confirm the generation its start put on trial or found settled, and nothing after a rollback, a skipped layer or when told to ignore the store |
| Trials.GoodTrialIsConfirmed | src/main.rs:231-252 | a generation tried by a start that could apply its settings is confirmed, with them, once that process has served for the confirm delay, whatever is written meanwhile |
| Trials.GoodSettingsStay | src/services/config_store.rs:278-283 | with nothing written since that start, every later start is clean, on that generation and its settings |
| Trials.RollbackApplies | src/services/config_store.rs:294-311 | when every start resolves alike, the settings a rollback restores are applied by the start that restores them, as they were by the process that confirmed them |
| Trials.StrayConfirmKeepsMatch | src/services/config_store.rs:346-354 | outside the lifecycle, confirming an older pending row over a rolled-back newest one keeps settings and generations matched if and only if the snapshots coincide |
| ParamNames.LookupsInvertColumns | src/config/params.rs:410-422 | each lookup finds a row exactly by that row's own text: no environment key, field name or file path hides another |
| ParamNames.NamesAreOneToOne | src/config/params.rs:78-407 | two texts denote the same field, or the same key, only when they are the same text |
| ParamNames.ShownDefaultIsUsed | src/config/params.rs:69-70 | writing out a parameter's shown default resolves like leaving it unset; the four secrets show none |
| Text.UnsignedRoundTrip | src/config/mod.rs:178-182 | a printed unsigned number parses back to itself |
| Text.SignedRoundTrip | src/config/mod.rs:216-220 | a printed signed 64-bit number parses back to itself |
| Text.PlusAndZerosAreRead | src/config/mod.rs:178-182 | a number reads the same with a plus sign or zeros before it |
| Text.BoolRoundTrip | src/config/mod.rs:33-39 | a printed boolean is read back by both the strict and the lenient parser |
| Text.LenientReadsIff | src/config/mod.rs:33-39 | exactly four words read as true and four as false, in letters of any case and with blanks around them |
| Text.ByteLenCounts | src/config/mod.rs:158-160 | the length secrets are measured by is the number of bytes of the text's encoding under section 3 of RFC 3629 |
| Sources.SourceAnswers | src/config/sources.rs:177-211 | the layer reported for a key is the highest holding it, its value is the answer, and none is reported exactly when there is none |
| Sources.Capture | src/config/sources.rs:85-92 | provenance has an entry for every parameter, the layer answering for it |
| Precedence.StartFollowsPrecedence | src/cli.rs:322-328 | a start takes every field from the first of command line, environment, store, environment file and configuration file that gives it, and records that one |
| Precedence.CallFollowsPrecedence | src/config/handle.rs:196-354 | a call that succeeds takes every live field from the first source that gives it, overrides first, leaves every boot field, lists one exactly when its source gives another value, and records the source found for each |
| Precedence.FirstPassStands | src/config/params.rs:26-33 | where the store is, what is exported and every secret are the same after the store has been read as before, whatever it holds |
| TomlFile.ParseToml | src/config/sources.rs:274-290 | files a table section by section, refusing it whole at the first entry that does not read |
| TomlFile.AcceptedIff | src/config/sources.rs:274-313 | a file is accepted if and only if its top level is all sections and every key in them is a known path with a value of its parameter's kind |
| TomlFile.FilesHoldNoSecrets | src/config/sources.rs:307-311 | whatever a file holds, the layer it yields sets no secret and nothing but parameters that have a path |
| TomlFile.PathSplitsOneWay | src/config/sources.rs:283-285 | a parameter's path comes from one section and key only, so no two entries are for the same parameter |
| TomlFile.EntriesHold | src/config/sources.rs:278-287 | every entry of an accepted file is in the layer, under its parameter's key, as it was written |
| TomlFile.EntriesSay | src/config/sources.rs:274-313 | every entry of an accepted file is under the key of the parameter whose path it spells, as a text that reads back as its own value |
| TomlFile.KindsAreTheFields | src/config/params.rs:78-407 | a file must give a flag exactly where the field is always printed as one, and a number exactly where it always is |
| TomlFile.FileValueReads | src/config/sources.rs:293-306 | the resolver reads strings and booleans as a file has them, and an integer if and only if it is in its field's range |
| Configuration.BootLayer | src/config/mod.rs:334-340 | holds the printed value of exactly the boot fields |
| Configuration.BootDrift | src/config/mod.rs:346-353 | lists exactly the boot fields whose printed values differ |
| Configuration.MergeFollowsTheTable | src/config/mod.rs:358-388 | the fields merged by hand are exactly those the parameter table calls live |
| Resolution.ResolvesFieldByField | src/config/mod.rs:153-277 | a configuration resolves exactly when every field does on its own, holds each field's own value, and otherwise names a field that fails |
| Resolution.FieldsDetermine | src/config/mod.rs:300-327 | a configuration is determined by its printed fields: printing loses nothing |
| Resolution.CanonicalIsStable | src/config/mod.rs:153-277 | reading back a value that was read and printed gives the same value, clamping and derived secrets included |
| Resolution.DefaultsAreValid | src/config/mod.rs:153-277 | a field nobody sets has a valid value if and only if it is not one of the two required secrets |
| Resolution.SecretReads | src/config/mod.rs:153-163 | a required secret reads if and only if it is there with at least 16 bytes, and the error tells which it lacks |
| Resolution.DerivedSecretReads | src/config/mod.rs:47-57 | a derived one the same when it is given, and as the salt when it is not |
| Resolution.CompressionIsNearest | src/config/mod.rs:240-248 | a compression resolves to the level from 1 to 100 nearest to the one asked for |
| Resolution.RestartOnlyWhenSaid | src/config/mod.rs:249-256 | restarting is enabled only by a text that spells true, and an unreadable one disables it |
| Resolution.CarryingIsFixpoint | src/config/handle.rs:391-411 | a configuration resolved from any stack resolves to itself with its own boot values carried underneath |
| Resolution.MergeKeepsBoot | src/config/handle.rs:205-206 | merging leaves what is carried next and what counts as drift as they were |
| Handle.ConfigHandle.Reload | src/config/handle.rs:196-218 | a success publishes the merged configuration, drops the overrides and records layer, provenance and drift; a failure changes nothing |
| Handle.ConfigHandle.AdoptStored | src/config/handle.rs:231-251 | as a reload, with the overrides kept and resolved on top |
| Handle.ConfigHandle.DryRun | src/config/handle.rs:261-272 | says what adopting a layer would resolve to and changes nothing |
| Handle.ConfigHandle.Patch | src/config/handle.rs:284-354 | installs a batch of overrides whole, or refuses it for the first key that is not live, then pinned, then a bad filter, and changes nothing |
| HandleRuns.SuccessIsCoherent | src/config/handle.rs:196-354 | one successful call leaves configuration, drift and provenance all those of one resolution over the boot configuration |
| HandleRuns.PublishedIsACache | src/config/handle.rs:196-354 | with command line, environment and files fixed, that holds after every run of calls, failed ones included |
| HandleRuns.FreshIsCoherent | src/config/handle.rs:82-98 | a handle built from what its stored layer resolved to starts in that state, up to default for carried |
| HandleRuns.StartsCoherentIffApplied | src/main.rs:149-175 | a start leaves the handle in that state if and only if the stored layer was applied |
| HandleRuns.SkippedLayerBlocks | src/config/boot.rs:54-67 | after a start that skipped its stored layer, with the files as they were, reloading that layer fails and a patch succeeds only if it overrides the field that failed |
| HandleRuns.UnchangedReload | src/config/handle.rs:196-218 | with no overrides, reloading unchanged sources publishes what was published and what was pending |
| HandleRuns.ReloadAfterStart | src/config/handle.rs:196-218 | a process that reloads what it started from keeps its configuration, with no drift |
| HandleRuns.CallKeepsUnmasked | src/config/handle.rs:300-316 | each call keeps overrides off keys set on the command line or in the environment, whatever the files hold |
| HandleRuns.OverridesNeverMask | src/config/handle.rs:284-354 | in every state reached from any start, one that skipped its stored layer included, each override is of a live field set in neither place, and provenance pins exactly the fields set there |
| HandleRuns.BootFieldsNeverMove | src/config/mod.rs:355-388 | over any calls and any changes to the files, the published boot fields are those at startup |
| HandleRuns.PatchesCompose | src/config/handle.rs:334-354 | two successful patches in a row are one patch with both batches |
| HandleRuns.ReloadForgets | src/config/handle.rs:196-218 | a reload after any calls gives the state, or the refusal, it would have given before them |
| PendingRestart.ResolvesWithSecrets | src/config/mod.rs:153-277 | the two required secrets alone resolve, on the default port, or on a stored one when it is 8080 |
| PendingRestart.PendingIsAnsweredDrift | src/config/handle.rs:40-45 | the list holds a boot field if and only if a start from the same stored layer would change it and some source still answers for it |
| PendingRestart.PendingIsCompleteIff | src/config/handle.rs:40-45 | the list tells the whole truth about a start from the same stored layer if and only if every boot field no source answers for runs with its default |
| PendingRestart.RemovalIsNotReported | src/config/handle.rs:231-251 | removing a stored boot setting no file sets publishes the same configuration and reports nothing pending |
| PendingRestart.RemovedPortGoesUnreported | src/config/handle.rs:40-45 | a removed stored port goes unreported while the next start would use another |
| Restarts.RestartedIs | src/main.rs:121-151 | a start, with the surroundings, files and tables it finds, runs with the layer left by undoing a generation on trial, with nothing stored if that does not resolve or it is told to ignore the store |
| Restarts.PendingIsTrueIff | src/config/handle.rs:40-45 | for a handle as a resolve left it, and whatever command line values, files and tables the next start finds, the list tells the whole truth about that start if and only if each boot field keeps its verdict from what answered for it then to what answers for it there |
| Restarts.PendingWhenUnchangedIff | src/config/handle.rs:40-45 | when the next start finds the answer the last resolve found for each boot field, that is so if and only if every boot field no source answers for runs with its default |
| Restarts.PendingOverRunsIff | src/config/handle.rs:38-45 | from any start, through any calls and any changes to the files, to any next start, the list is true if and only if each boot field keeps its verdict from what the last reload or adoption found |
| Restarts.DeleteSaysRestartIff | src/routes/admin.rs:476-482 | a removal tells the truth about its field and the next start if and only if the field keeps its verdict until then; if that start finds the same answer for it, it asks for a restart if and only if the start would change the field and some source still answers for it |
| Restarts.RestartAfterStart | src/main.rs:129-175 | right after a start the list is empty, and the next start, with whatever it finds, reads the layer this one read, or after a trial the last confirmed settings; with nothing changed and no trial it runs as this one does |
| Restarts.TrialGoesUnreported | src/config/handle.rs:40-45 | a process on the trial of its first stored port lists nothing, and a restart now brings back the default port |
| Restarts.RotatedSecretGoesUnreported | src/restart.rs:97-117 | a process whose salt file has been given another salt lists nothing, and a restart changes the salt |
| Restarts.EditedFileGoesUnreported | src/config/handle.rs:338-354 | an override resolves with a configuration file that has been given another port and lists nothing, and a restart changes the port |
| AdminRequests.Coerced | src/routes/admin.rs:235-251 | a body reads if and only if every value is a string, number or boolean, and then keeps its fields and their texts in order |
| AdminRequests.Checked | src/routes/admin.rs:297-334 | a body passes if and only if writes are enabled, it is not empty, and every field is storable with a scalar value |
| AdminRequests.Overrides | src/routes/admin.rs:521-570 | a patch body passes if and only if every field exists, is live, is not pinned and has a scalar value |
| RequestEffects.RefusalNamesTheFault | src/routes/admin.rs:293-334 | a write refused before its dry run is told the first thing wrong: writes disabled, nothing named, the first value that is no scalar, then the first field that is none or is never stored |
| RequestEffects.PutStoresWhatItSays | src/routes/admin.rs:235-251 | an accepted write leaves each field of its body, in the table and in the handle's stored layer, as a text that says what the body does, no other field changed, and answers with the generation opened on the result |
| RequestEffects.PatchSetsWhatItSays | src/routes/admin.rs:495-605 | an accepted patch does so in the overrides, and stores nothing |
| RequestEffects.DeleteTakesOut | src/routes/admin.rs:426-484 | an accepted removal takes its one field out of both and opens a generation on the result |
| RequestEffects.ConfirmingMarks | src/main.rs:231-252 | a confirmation marks the pending generation it names and leaves settings and handle alone |
| RequestEffects.DisabledForGood | src/routes/admin.rs:297-299 | where writes are disabled, no run of requests ever accepts a write, removal or patch, or changes a setting, opens a generation or sets an override |
| Admin.AdminApi.Put | src/routes/admin.rs:293-380 | check, dry run, table, adoption, in that order, with what each refusal leaves behind |
| Admin.AdminApi.Delete | src/routes/admin.rs:426-484 | the same for a removal, refused before the table is touched when nothing was stored |
| Admin.AdminApi.Patch | src/routes/admin.rs:495-605 | overrides in memory only; the tables never change |
| Admin.AdminApi.Reload | src/routes/admin.rs:608-641 | resolves again from the stored layer the handle already holds |
| Admin.AdminApi.HangUp | src/main.rs:371-411 | resolves again from the table as it now is |
| AdminRuns.RefusedChangesNothingIff | src/routes/admin.rs:336-363 | a refused request never touches the handle, and leaves the table untouched unless the files changed so that its dry run passed and its adoption failed |
| AdminRuns.AcceptedOnceProbed | src/routes/admin.rs:345-363 | with the same files at both reads, a dry run that accepts is never followed by a refused adoption |
| AdminRuns.HandledAgrees | src/routes/admin.rs:293-380 | one request keeps the handle's stored layer equal to the translated table |
| AdminRuns.AgreementNeverBreaks | src/routes/admin.rs:293-380 | so does every sequential run of writes, removals, patches, reloads and confirmations |
| AdminRuns.HangupRestoresAgreement | src/main.rs:377-391 | in agreement both kinds of reload are the same, and a successful reload on a signal restores agreement however it was lost |
| Overlaps.PutAlone | src/routes/admin.rs:293-380 | the four steps of a write with nothing in between are the write, refusals included |
| Overlaps.DeleteAlone | src/routes/admin.rs:426-484 | so are those of a removal |
| Overlaps.ReloadsAlone | src/main.rs:377-391 | and the two of either kind of reload |
| Overlaps.OthersAlone | src/routes/admin.rs:495-605 | a patch, a confirmation, a write by another process and a dropped request are one step each, which leaves what is under way alone |
| Overlaps.DisabledInterleavings | src/routes/admin.rs:297-299 | where writes are disabled, no interleaving of requests changes a setting or opens a generation |
| Overlaps.AgreesIff | src/routes/admin.rs:336-363 | over every interleaving of steps, table and handle agree if and only if the layer installed last is what the table translates to |
| Overlaps.TableIsItsEdits | src/routes/admin.rs:355-355 | over every interleaving, the table comes to the edits written, in the order they were written |
| Overlaps.OneAtATimeAgrees | src/routes/admin.rs:336-363 | with one request at a time they agree whenever none is under way |
| Overlaps.HandleIsItsCalls | src/config/handle.rs:196-354 | over every interleaving the handle goes through a run of calls, so what holds over every run of calls holds there |
| Overlaps.HandleHoldsSomeEdits | src/routes/admin.rs:336-363 | over every interleaving from agreement with none under way, the handle holds the layer from before with some of the edits written since, in the order of their writes |
| Overlaps.TwoEditsIff | src/routes/admin.rs:336-363 | two writes or removals, in any interleaving: the exact condition on the two for each of the four layers that can be installed last, and that from no request under way there are no others |
| Overlaps.OneEditIff | src/main.rs:377-391 | a write or removal among reloads leaves the handle with the layer from before it or after it, and with the one from before they agree if and only if the edit changed nothing |
| Overlaps.OverlapInOrderIff | src/routes/admin.rs:336-363 | two overlapping edits adopted in the order of their writes agree if and only if the first changed nothing the second does not touch |
| Overlaps.OverlapReversedIff | src/routes/admin.rs:336-363 | adopted the other way round they agree if and only if the second left what it touches as the first did |
| Overlaps.StaleReloadIff | src/main.rs:377-391 | a reload that read before an edit and installs after its adoption agrees if and only if the edit changed nothing; installed before, it does no harm |
| Overlaps.ReversedAdoptionsDisagree | src/routes/admin.rs:336-363 | two writes of one field to a server just started, every step succeeding, that leave the table with one value and the handle with the other |
| Overlaps.StaleReloadIsReportedShadowed | src/routes/admin.rs:259-268 | a write overlapped by a reload of the table from before it leaves its field reported as shadowed with nothing above it |
| AdminRuns.ServerFollowsTable | src/routes/admin.rs:293-484 | from a start that applied the store, any run leaves the running configuration equal to resolving the table under the overrides and over the files |
| AdminRuns.PutReportIsTrue | src/routes/admin.rs:388-423 | each touched field is masked when a higher layer answers, waiting when the store answers but the process runs with something else, and otherwise runs with what the stored text reads as; no other field is named |
| AdminRuns.ShadowedIsTrueIff | src/routes/admin.rs:259-268 | from any start, through any calls, and whatever the table holds, the fields reported as shadowed are those a higher layer answers for if and only if every stored field nothing outranks was in the stored layer last resolved |
| AdminRuns.ShadowedAtStartIff | src/routes/admin.rs:259-268 | right after startup that is so if and only if the store was applied or every stored field is outranked |
| AdminRuns.SkippedIsReportedShadowed | src/routes/admin.rs:259-268 | a stored value skipped at startup is reported as shadowed with nothing above it |
| AdminRuns.AcceptedBootsIff | src/routes/admin.rs:336-353 | after a dry run that accepted, the layer a later start reads, with whatever surroundings and files it finds, resolves if and only if each field that lay under an override or is answered otherwise than at the dry run reads, and both required secrets have a source |
| AdminRuns.OverrideHidesAMistake | src/routes/admin.rs:336-353 | with an override in place the dry run accepts a stored layer that the next start cannot resolve |
| SessionTables.LivesAsAskedIff | src/models/session.rs:65-92 | a session lives exactly as long as asked when its expiry fits 64 bits, and is otherwise born expired |
| SessionTables.Swept | src/services/storage.rs:131-147 | the rows left are exactly those the expiry predicate calls unexpired |
| SessionTables.WrongAnswersAreCounted | src/services/session_ops.rs:128-155 | the first max wrong answers only move the count, and the one after them deletes the session |
| SessionTables.SequentialValidation | src/services/session_ops.rs:115-156 | one at a time and for any limit, remaining attempts count down from max - 1 to 0, then the limit is reported once, then the session is gone; a right answer before that is accepted once |
| SessionTables.CreatedHasAllAttempts | src/models/session.rs:65-88 | a session just created carries what was asked for and its creation time, and is answered as above from its first attempt |
| SessionTables.SweepChangesOnlyDeletion | src/services/storage.rs:46-64 | a sweep changes no fetch or validation at or after it, and changes what a deletion answers exactly when the session was there and had expired |
| Sessions.StorageService.CreateSession | src/services/storage.rs:23-44 | adds one row, or none when the id is taken |
| Sessions.StorageService.GetActiveSession | src/services/storage.rs:49-64 | the live row, or none, deleting a row found expired |
| Sessions.StorageService.IncrementAttemptCount | src/services/storage.rs:97-110 | moves one row's count by one and never makes a row |
| Sessions.StorageService.DeleteSession | src/services/storage.rs:113-128 | removes one row and says whether it was there |
| Sessions.StorageService.DeleteExpiredSessions | src/services/storage.rs:131-147 | removes every expired row, no other, and counts them |
| Sessions.SessionService.Create | src/services/session_ops.rs:46-91 | stores the answer's hash and the image's encryption under the new id, or nothing at all |
| Sessions.SessionService.GetImage | src/services/session_ops.rs:98-111 | the live session with its decrypted image, or which of the two was missing |
| Sessions.SessionService.Validate | src/services/session_ops.rs:115-156 | reads, compares, and then deletes the session or counts the attempt |
| SessionRuns.AloneIsSequential | src/services/session_ops.rs:115-156 | a validation nobody interrupts is the undisturbed one, in its answer and in the table |
| SessionRuns.FetchAloneIsSequential | src/services/storage.rs:49-64 | so is a fetch |
| SessionRuns.CreationIsAdmitted | src/services/storage.rs:23-44 | the interleavings admit every session made under an id never used before |
| SessionRuns.ShownForItsLifetime | src/models/session.rs:77-92 | a session left alone is shown until as many seconds have gone by as were asked for, and then there is none |
| SessionRuns.DeletionsAreStorage | src/services/storage.rs:113-147 | a sweep leaves exactly the rows not expired at its time, a removal every row but its own, and a dropped request nothing under way and every row |
| SessionRuns.DeletedStaysDeleted | src/services/storage.rs:97-110 | over every interleaving a deleted session never comes back, late increments included |
| SessionRuns.ChecksAreBounded | src/services/session_ops.rs:115-156 | with at most k requests at once on a session, at most max + k - 1 solutions are compared besides those of dropped requests, and at most k are accepted |
| SessionBounds.BoundIsReached | src/services/session_ops.rs:115-156 | for every limit and every k there is an interleaving that compares exactly max + k - 1 |
| SessionBounds.AcceptancesAreReached | src/services/session_ops.rs:115-156 | and for every limit and every k one that accepts exactly k |
| SessionBounds.OneAtATime | src/services/session_ops.rs:115-156 | with one request at a time, at most max comparisons and one acceptance |
| SessionBounds.LiveSessionIsIntact | src/services/session_ops.rs:69-111 | while a session is there, through any interleaving, its image decrypts to the one it was created with and its answer still verifies |
| SessionCleanup.SweepsAreUnobservable | src/tasks/cleanup.rs:15-27 | under a clock that does not go back, sweeps at any points of any interleaving change no answer to a fetch or a validation |
| CleanupTask.Task.Serve | src/tasks/cleanup.rs:63-108 | serves wake-ups until told to stop, sweeping at each tick and once more on stopping |
| CleanupTask.TimerFollowsConfiguration | src/tasks/cleanup.rs:75-93 | the timer runs with the period last asked for, at least a second, and an unrelated change of configuration does not restart it |
| CleanupTask.TimerFiresAfterAPeriod | src/tasks/cleanup.rs:33-37 | the timer fires for the first time a full period after it was last set |
| CleanupTask.SweepsAtTicksAndStop | src/tasks/cleanup.rs:63-108 | of the sessions there, those left are exactly the ones that had expired at no tick heard before stopping, nor at the stop |
| CleanupTask.LastSweepDecides | src/tasks/cleanup.rs:63-108 | all the sweeps of a run amount to the last of them |
| Hmac.HmacSha256 | src/services/hmac.rs:13-41 | for every key and every split of the message the streamed code is the formula of section 2 of RFC 2104 on the whole message |
| Hmac.FillKey | src/services/hmac.rs:14-20 | the key array holds the key, or a longer key's digest, followed by zeros |
| Hmac.FillPads | src/services/hmac.rs:22-27 | the two pad arrays hold the key array xored with their constants |
| Hmac.SameMacCollides | src/services/hmac.rs:13-41 | two messages with one code under one key exhibit a collision of the hash |
| Hmac.SameBlockIff | src/services/hmac.rs:14-20 | two keys of at most a block act alike in this step if and only if they differ only in trailing zeros |
| SolutionHash.SolutionHasher.constructor | src/services/solution_hash.rs:34-41 | derives the key from the domain label and the secret |
| SolutionHash.SolutionHasher.HashSolution | src/services/solution_hash.rs:44-49 | the code of the id, a zero byte and the answer, in hexadecimal |
| SolutionHash.SolutionHasher.Verify | src/services/solution_hash.rs:54-57 | accepts exactly the text whose hash is stored |
| SolutionHash.HexReads | src/services/solution_hash.rs:44-49 | the stored text is the code in base 16, two digits to a byte, the high one first |
| SolutionHash.FramingIsInjective | src/services/solution_hash.rs:44-49 | messages of ids without a zero byte coincide if and only if ids and answers do |
| SolutionHash.FramingNeedsZeroFreeIds | src/services/solution_hash.rs:44-49 | without that condition two pairs share a message |
| SolutionHash.AcceptsOnlyTheAnswer | src/services/solution_hash.rs:54-57 | the right answer verifies, and another one, or another session's, only if the hash collides |
| ImageCipher.ImageCipher.Encrypt | src/services/image_cipher.rs:85-109 | version byte, nonce and sealed image, under the session's own key |
| ImageCipher.ImageCipher.Decrypt | src/services/image_cipher.rs:115-146 | refuses what is too short, then another version, then what does not open, and otherwise gives the image |
| ImageCipher.ImageCipher.DeriveKey | src/services/image_cipher.rs:76-82 | the code of the label, a zero byte and the id under the master key |
| ImageCipher.DecryptUndoesEncrypt | src/services/image_cipher.rs:85-146 | an encrypted image decrypts to itself and is 29 bytes longer |
| ImageCipher.DecryptsExactlyTheEncrypted | src/services/image_cipher.rs:115-146 | decryption gives an image if and only if encryption of that image under some nonce gives the stored bytes |
| ImageCipher.SessionKeysDiffer | src/services/image_cipher.rs:76-82 | two sessions share an image key only if the hash collides |
| ImageCipher.DerivedKeysDiffer | src/services/image_cipher.rs:32-37 | one secret never serves as both keys unless the hash collides |
| McNemar.OutcomesCounted | scripts/score-ab.py:130 | the binomial coefficient counts the outcomes of n tosses with that many heads, for any property of that number |
| McNemar.PValueIsTheShare | scripts/score-ab.py:125-131 | the p-value is the share of all 2^n outcomes at least as lopsided as the one seen, and the cut at 1 takes something off exactly when the counts are equal and not zero |
| McNemar.PValueIsSymmetric | scripts/score-ab.py:125-131 | the p-value does not depend on the direction of the flips and lies above 0 and at most at 1 |
| Flips.File | scripts/score-ab.py:99-101 | files every attempt under its text and model, and in the second pass under its difficulty too |
| Flips.LastAttemptDecides | scripts/score-ab.py:99-101 | what is filed is each text's last verdict in each condition, and no text without an attempt |
| Flips.CountFlips | scripts/score-ab.py:103-108 | the counter holds, for each kind of flip, how many texts show it, whatever order they are taken in |
| Flips.FlipsAreOfAttempts | scripts/score-ab.py:99-108 | a text shows lost, gained, both or neither as the last attempts of one model on it, without and with the setting, were solved |
| Flips.FlipsPartition | scripts/score-ab.py:103-110 | every text attempted both ways shows exactly one of the four flips, so the counts add up to the comparisons |
| Flips.DifficultiesSplit | scripts/score-ab.py:133-147 | with each text drawn at one difficulty, the flips counted at a difficulty are as many as the overall flips among its texts |
| Coverage.ParseLcov | scripts/coverage-report.py:52-101 | each line with a record gets the largest of its counts, none below zero, and no other line or file appears |
| Coverage.MergeIsDetermined | scripts/coverage-report.py:84-93 | the merge depends only on which records there are |
| Coverage.MaximumIff | scripts/coverage-report.py:87-93 | a line's merged count is the largest of its records' if and only if one of them is not negative |
| Coverage.NegativeCountIsLost | scripts/coverage-report.py:87-93 | a line whose only record counts -1 is merged to 0 |
| Coverage.BlockOrderIsIrrelevant | scripts/coverage-report.py:75-99 | reordering the blocks of a report, whatever lines they hold, changes neither the merged counts nor the totals |
| Coverage.ChangedLines | scripts/coverage-report.py:107-141 | collects exactly the lines some hunk of the file wrote |
| Coverage.PatchCoverage | scripts/coverage-report.py:172-188 | counts and lists file by file in the order given |
| Coverage.JudgedCounts | scripts/coverage-report.py:179-184 | a file's total is the number of changed lines that are instrumented, its covered the number of those that were hit |
| Coverage.PatchCounts | scripts/coverage-report.py:172-188 | the total is the number of listed lines that are instrumented in files not excluded, and the covered the number of those hit |
| Coverage.DiffIsMeasured | scripts/coverage-report.py:172-188 | the lines that count are exactly those some hunk of the diff wrote, in a file not excluded, that are instrumented |
| Coverage.PatchAddsUp | scripts/coverage-report.py:172-188 | covered and listed lines add up to the total, and the listed ones are exactly the changed, instrumented, not excluded lines never hit |
| Coverage.PatchPassesIff | scripts/coverage-report.py:189-194 | the patch gate passes if and only if nothing changed is measured or the lines hit are at least the share asked for of those measured |
| Coverage.ProjectPassesIff | scripts/coverage-report.py:144-166 | the gate on the report compares the sum of its hit counts with the sum of its found counts |
| Coverage.GateIsMonotone | scripts/coverage-report.py:189-194 | raising any counts in a report never makes a passing patch gate fail |
| Sheet.CopyTile | examples/difficulty_sheet.rs:89-93 | for a tile of any size at any place, the sheet shows the tile inside its rectangle and what it showed before elsewhere |
| Sheet.Render | examples/difficulty_sheet.rs:52-107 | for tiles of any sizes the finished sheet is as large as stated and shows at every position the last tile to cover it, or the mount |
| Sheet.PaintedAsShown | examples/difficulty_sheet.rs:64-94 | with tiles of the size asked for, each position shows the one tile it belongs to |
| Sheet.SlotIff | examples/difficulty_sheet.rs:87-88 | a position belongs to a tile if and only if it lies between its start and end, so no two tiles overlap |
| Sheet.TilesFit | examples/difficulty_sheet.rs:52-94 | the bounds guard is never false for tiles of the size asked for: there are four pixels before the first, between any two and after the last, and the sheet ends there |
| Sheet.SheetShows | examples/difficulty_sheet.rs:64-94 | each pixel of each tile is at its own place and every position no tile covers has the mount's colour |

## Left out

- The image generator: a tile is any size and any pixels, and what holds for tiles of the size asked for says so.
- ConfigStore.ConfigStore.Write: who wrote a row and when it was written are not modelled; nothing decided by the store reads either.
- Handle.ConfigHandle.Patch: a string is a log filter or not according to a parameter, since that syntax belongs to a library.
- Coverage.PatchCoverage: the files and their lines come in the order in which the script has sorted them.
- Sessions.SessionService.Create: parameter checks and the generation of text and image are inputs.
- AdminRuns.AgreementNeverBreaks: requests run one after another; overlapping ones are the subject of `Overlaps`.
- A process told to ignore the store: its handle begins with an empty stored layer, so it is outside the agreement of handle and table; `Restarts` has it among the next starts.
- Rows and generations edited by hand: the store starts empty and changes through its own operations.
- Database errors, and a process that dies inside a transaction: each transaction is one step.
- The JSON snapshot codec: a snapshot is the map it encodes.
- The order and wording of reports: lists of names are compared as sets, and messages by the groups they name.
- Numbers in a request body are the text they print as; their JSON syntax is a library's.
- Parsing command lines and env files, reading secret files, and the syntax of TOML: what they yield at each start is an input, and so is a failure to read them.
- Serving several readers of the published configuration at once: the handle's calls run under its lock, one at a time.
- The restart endpoint, the pre-flight bind, PID files and signals: a process starts, serves, stops.
- HTTP routing, authentication, rate limiting, metrics, tracing and the admin web page.
- The summaries `scripts/score-ab.py` prints and its loop over difficulty buckets, which only counts what `Flips.DifficultiesSplit` speaks of.
- Floating point in the scripts: shares and percentages are exact.
- LF and LH lines that do not read as numbers, and a report without records, which end the coverage script with an error.
