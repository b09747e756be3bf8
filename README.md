# GitHub Actions Workflow Builder — verified model

The source is a JavaFX wizard with three steps:

1. It asks for a number of runners and a set of global workflow events.
2. It shows one form per runner: job name, `runs-on` image, cloud provider, two secret names and the job's events.
3. It writes a GitHub Actions workflow file.

This project models the core of the wizard:

- **Wizard state.** The state held between screens (`runnerCount`, `configs`, `currentRunner`, `workflowTriggers`) is the class `Builder.GitHubActionsBuilderApp`. The two "Next" handlers are methods on it that update the fields in place.
- **Reading a form.** Turning a filled-in form into a job (`toConfig`) is a method, specified by a function on the form's values.
- **Writing the workflow.** `buildYaml` is a method that appends to a string the way the source's `StringBuilder` does. It is proved equal to `RenderYaml`, a line-by-line specification of the workflow text. The properties of that text are lemmas about `RenderYaml`.

The modules:

- `strings.dfy` (`Strings`): text as a sequence of `"\n"`-terminated lines (`Unlines`), splitting it back (`SplitLines`), and Java's `String.trim`.
- `ordered_set.dfy` (`OrderedSet`): Java's `LinkedHashSet` as a duplicate-free sequence in insertion order. `InsertAll` models `addAll`. `Dedup` is an independent first-seen deduplication used as its reference definition.
- `workflow.dfy` (`Workflow`): the job record `RunnerConfig`, the six event checkboxes, and the workflow's lines (`WorkflowLines`, `RenderYaml`), with their properties.
- `builder.dfy` (`Builder`): the wizard class, the form hand-over and the imperative writers.

## Model

| member | source | states |
|---|---|---|
| Builder.GitHubActionsBuilderApp.constructor | src/main/java/com/example/githubactionsbuilder/GitHubActionsBuilderApp.java:33-36 | The wizard starts with no jobs, no global events and `currentRunner` 0, on the runner-count screen, and satisfies its invariant. |
| Builder.GitHubActionsBuilderApp.SubmitRunnerCount | src/main/java/com/example/githubactionsbuilder/GitHubActionsBuilderApp.java:56-68 | The new runner count is the spinner value. The global events are exactly the ticked boxes, in checkbox order. The job list is cleared and `currentRunner` is reset to 0, so answering the first screen again starts over. The first runner form is shown. The invariant holds afterwards. |
| Builder.GitHubActionsBuilderApp.SubmitRunner | src/main/java/com/example/githubactionsbuilder/GitHubActionsBuilderApp.java:77-85 | The form's job is appended to the list and `currentRunner` goes up by one. The runner count and the global events are unchanged. The next form is shown while `currentRunner` < `runnerCount`; otherwise the summary is shown. The summary is shown iff the number of jobs equals the runner count. The invariant is kept. |
| Builder.SubmitRunnerKeepsInvariant | src/main/java/com/example/githubactionsbuilder/GitHubActionsBuilderApp.java:77-85 | On plain values: appending a job whose events are in checkbox order keeps `currentRunner == \|configs\| <= runnerCount` and keeps every event list in checkbox order. The summary comes next exactly when the job count reaches the runner count. |
| Builder.GitHubActionsBuilderApp.BuildYaml | src/main/java/com/example/githubactionsbuilder/GitHubActionsBuilderApp.java:114-154 | The text built is exactly `RenderYaml(workflowTriggers, configs)`. It has no `modifies` clause, so the wizard's state is unchanged. |
| Builder.OnTriggers | src/main/java/com/example/githubactionsbuilder/GitHubActionsBuilderApp.java:115-118 | The set filled from the global events and then every job's events is `DedupUnion`: the first-seen deduplication of their concatenation. |
| Builder.AddAll | src/main/java/com/example/githubactionsbuilder/GitHubActionsBuilderApp.java:117 | Adding a list to the ordered set, one element at a time, gives `InsertAll`. |
| Builder.BuildJobHead | src/main/java/com/example/githubactionsbuilder/GitHubActionsBuilderApp.java:128-129 | The job's key line and `runs-on` line, each terminated by a newline. |
| Builder.BuildEnv | src/main/java/com/example/githubactionsbuilder/GitHubActionsBuilderApp.java:130-141 | The text of `EnvSection`: no `env:` block when every field is empty. Otherwise an `env:` line followed by the CLOUD_PROVIDER, ACCESS_KEY and SECRET_KEY lines, in that order, each present only when its field is set. |
| Builder.BuildConditions | src/main/java/com/example/githubactionsbuilder/GitHubActionsBuilderApp.java:144-147 | The indexed loop that writes a separator before every condition but the first yields `JoinConditions`. |
| Builder.BuildIf | src/main/java/com/example/githubactionsbuilder/GitHubActionsBuilderApp.java:142-149 | There is no `if:` line for a job without events. Otherwise there is one `if:` line holding the joined conditions. |
| Builder.BuildJob | src/main/java/com/example/githubactionsbuilder/GitHubActionsBuilderApp.java:128-151 | The text of one job block is exactly `RenderJob(c)`. |
| Builder.JobText | src/main/java/com/example/githubactionsbuilder/GitHubActionsBuilderApp.java:128-151 | A job's text is the text of its four parts in order: key and runner, `env:` block, `if:` line, checkout step. |
| Builder.TriggerStep | src/main/java/com/example/githubactionsbuilder/GitHubActionsBuilderApp.java:123-125 | Writing `"  " + t + ":\n"` after the first i events gives the text of the first i + 1 event lines. |
| Builder.JobStep | src/main/java/com/example/githubactionsbuilder/GitHubActionsBuilderApp.java:127-152 | Appending job k's block after the first k blocks gives the text of the first k + 1 blocks. |
| Builder.CollectTriggers | src/main/java/com/example/githubactionsbuilder/GitHubActionsBuilderApp.java:222-228 | The six `if (box.isSelected()) add(name)` statements yield `Selected`: the ticked names, filtered from the canonical checkbox order. |
| Builder.ToConfig | src/main/java/com/example/githubactionsbuilder/GitHubActionsBuilderApp.java:221-236 | The job is `FormConfig(f)`: trimmed name, the ticked events in order, both combo values as chosen, and the trimmed secret names. |
| Builder.FormConfigSpec | src/main/java/com/example/githubactionsbuilder/GitHubActionsBuilderApp.java:221-236 | A job's event list is in checkbox order and has no duplicates. It contains exactly the ticked events. The job name has no blank character at either end. |
| Strings.Trim | src/main/java/com/example/githubactionsbuilder/GitHubActionsBuilderApp.java:230 | A trimmed text is no longer than the original, and neither of its ends is blank (a character up to U+0020). |
| Strings.TrimInfix | src/main/java/com/example/githubactionsbuilder/GitHubActionsBuilderApp.java:230 | The trimmed text is a contiguous part of the original. Every character cut off before or after it is blank. |
| Strings.TrimIdempotent | src/main/java/com/example/githubactionsbuilder/GitHubActionsBuilderApp.java:234-235 | Trimming twice is trimming once. |
| Strings.SplitUnlines | src/main/java/com/example/githubactionsbuilder/GitHubActionsBuilderApp.java:120-153 | Text written one newline-terminated line at a time splits back into exactly those lines, if no line holds a line break. |
| Strings.UnlinesTerminated | src/main/java/com/example/githubactionsbuilder/GitHubActionsBuilderApp.java:120-153 | The text of a non-empty list of lines is non-empty and ends in a newline. |
| OrderedSet.Insert | src/main/java/com/example/githubactionsbuilder/GitHubActionsBuilderApp.java:117 | `add` keeps the set duplicate-free. It adds exactly the new element. It never reorders what is already there. |
| OrderedSet.InsertAllIsDedup | src/main/java/com/example/githubactionsbuilder/GitHubActionsBuilderApp.java:115-118 | Adding a list to a duplicate-free set appends exactly the list's new elements, in first-seen order. |
| OrderedSet.InsertAllEmpty | src/main/java/com/example/githubactionsbuilder/GitHubActionsBuilderApp.java:115 | A set built from a list holds the first-seen deduplication of that list. |
| OrderedSet.InsertAllAppend | src/main/java/com/example/githubactionsbuilder/GitHubActionsBuilderApp.java:115-118 | Adding two lists one after the other is the same as adding their concatenation. |
| OrderedSet.DedupAppend | src/main/java/com/example/githubactionsbuilder/GitHubActionsBuilderApp.java:115-118 | Deduplicating `a + b` gives `a`'s deduplication, then the elements of `b` not in `a`, deduplicated. |
| OrderedSet.DedupNoDup | src/main/java/com/example/githubactionsbuilder/GitHubActionsBuilderApp.java:115 | A duplicate-free list is its own deduplication. |
| OrderedSet.Dedup | src/main/java/com/example/githubactionsbuilder/GitHubActionsBuilderApp.java:115-118 | The reference deduplication has no duplicates and has exactly the members of its input. |
| Workflow.SelectedSpec | src/main/java/com/example/githubactionsbuilder/GitHubActionsBuilderApp.java:222-228 | The event list of a set of checkboxes is a subsequence of the canonical order, has no duplicates, and contains the j-th canonical event iff the j-th box is ticked. |
| Workflow.SelectedInOrder | src/main/java/com/example/githubactionsbuilder/GitHubActionsBuilderApp.java:59-64 | The global event list follows the checkbox order. |
| Workflow.SelectedUnrolled | src/main/java/com/example/githubactionsbuilder/GitHubActionsBuilderApp.java:222-228 | The event list is each box's name, if ticked, concatenated box by box, as the six statements add them. |
| Workflow.CanonicalNoDup | src/main/java/com/example/githubactionsbuilder/GitHubActionsBuilderApp.java:59-64 | An event list in checkbox order has no duplicates. |
| Workflow.DedupUnionSpec | src/main/java/com/example/githubactionsbuilder/GitHubActionsBuilderApp.java:115-118 | The `on:` list has no duplicates. An event is on it iff it is a global event or some job's event. It is the global events' deduplication followed by the jobs' new events in job order. |
| Workflow.GlobalsFirst | src/main/java/com/example/githubactionsbuilder/GitHubActionsBuilderApp.java:115 | Duplicate-free global events open the `on:` list exactly as given. |
| Workflow.JobTriggersMembers | src/main/java/com/example/githubactionsbuilder/GitHubActionsBuilderApp.java:116-118 | An event is among the jobs' events iff some job lists it. |
| Workflow.EnvSpec | src/main/java/com/example/githubactionsbuilder/GitHubActionsBuilderApp.java:130-141 | An `env:` block is written iff it has at least one variable line. There is one variable line per non-empty field. |
| Workflow.JoinSnoc | src/main/java/com/example/githubactionsbuilder/GitHubActionsBuilderApp.java:144-147 | Adding an event adds its condition, preceded by " \|\| " unless it is the first. |
| Workflow.JoinLength | src/main/java/com/example/githubactionsbuilder/GitHubActionsBuilderApp.java:144-147 | k events give their k conditions plus k − 1 separators of four characters. |
| Workflow.JobLinesShape | src/main/java/com/example/githubactionsbuilder/GitHubActionsBuilderApp.java:128-151 | A job block starts with the name line and the `runs-on` line. Its third line is `env:` iff some env field is set, and the variable lines follow it. Its third line from the end is the `if:` line iff the job has events. It always ends with the checkout step. |
| Workflow.JobsLinesSnoc | src/main/java/com/example/githubactionsbuilder/GitHubActionsBuilderApp.java:127-152 | Adding a job adds its block after the blocks already written. |
| Workflow.JobBlock | src/main/java/com/example/githubactionsbuilder/GitHubActionsBuilderApp.java:127-152 | There is one block per job, in list order: job k's block sits between the blocks of the jobs before it and those after it. |
| Workflow.WorkflowShape | src/main/java/com/example/githubactionsbuilder/GitHubActionsBuilderApp.java:120-152 | The workflow opens with the title and `on:`. Then comes one `"  " + t + ":"` line per event of the `on:` list, in order. Then `jobs:`, then the job blocks. |
| Workflow.RenderYamlFrame | src/main/java/com/example/githubactionsbuilder/GitHubActionsBuilderApp.java:121-122 | The text starts with `"name: Generated Workflow\non:\n"` and ends in a newline. |
| Workflow.RenderYamlLines | src/main/java/com/example/githubactionsbuilder/GitHubActionsBuilderApp.java:120-153 | If no field holds a line break, reading the text back line by line gives exactly the workflow's lines. |
| Workflow.WorkflowOnOneLine | src/main/java/com/example/githubactionsbuilder/GitHubActionsBuilderApp.java:120-152 | If no field holds a line break, no workflow line does either. |

## Left out

- `saveYaml` (lines 99-112) is not modelled, because it is a file chooser, a file write and an error dialog. `BuildYaml` models the text it writes.
- The JavaFX layout, labels, the window title and `Platform.exit` are not modelled. The shown screen is abstracted as the `Scene` datatype.
- GitHubActionsBuilderApp.SubmitRunner requires `scene == RunnerConfigScene`, because its button only exists on a runner form. The runner-count handler has no such condition, since only the initial screen offers it.
- GitHubActionsBuilderApp.SubmitRunnerCount takes the spinner value with `1 <= n` and does not model the spinner's upper bound of 10 (line 47). The model needs no upper bound.
- The form's pre-filled job name `"runner" + index` (line 211), the combo defaults `ubuntu-latest` and `AWS`, and the "Finish" label are not modelled. The form is modelled by the values it holds when it is submitted.
- Combo boxes that return `null`: `runsOn` and `cloud` are plain strings here. An unselected combo, which would make the source throw on `cloud.isEmpty()`, is not modelled.
- YAML escaping is not modelled, because the source performs none. Job names, secret names or events containing `:`, quotes or line breaks are written out verbatim. `RenderYamlLines` states the line structure only when no field holds a line break.
- The loops of `buildYaml` are split into the methods `OnTriggers`, `BuildJobHead`, `BuildEnv`, `BuildIf`, `BuildJob` and `BuildConditions`. Each returns the text it appends to the one `StringBuilder`. The resulting text is the same.
