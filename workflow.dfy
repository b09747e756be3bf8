/** The workflow the wizard collects and the GitHub Actions YAML it is
    written out as, stated line by line. */
module Workflow {
  import opened Strings
  import opened OrderedSet

  /** The six event checkboxes, in the order both forms list them. */
  const Canonical: seq<string> :=
    ["push", "pull_request", "workflow_dispatch", "schedule", "issues", "release"]

  /** The state of the six event checkboxes of a form. */
  datatype Checkboxes = Checkboxes(
    push: bool, pullRequest: bool, workflowDispatch: bool,
    schedule: bool, issues: bool, release: bool)
  {
    /** Which checkboxes are ticked, in Canonical's order. */
    function Ticks(): (b: seq<bool>)
      ensures |b| == |Canonical|
    {
      [push, pullRequest, workflowDispatch, schedule, issues, release]
    }
  }

  /** The names whose box is ticked, in their order. */
  function Filter(names: seq<string>, ticks: seq<bool>): seq<string>
    requires |names| == |ticks|
  {
    if names == [] then []
    else (if ticks[0] then [names[0]] else []) + Filter(names[1..], ticks[1..])
  }

  /** The event list a form's checkboxes stand for. */
  function Selected(c: Checkboxes): seq<string>
  {
    Filter(Canonical, c.Ticks())
  }

  /** `ts` is `names` with some elements left out. */
  predicate IsSubseq(ts: seq<string>, names: seq<string>)
    decreases |names|
  {
    if ts == [] then true
    else if names == [] then false
    else if ts[0] == names[0] then IsSubseq(ts[1..], names[1..])
    else IsSubseq(ts, names[1..])
  }

  /** A subsequence of Canonical: events in the checkboxes' order. */
  predicate InCanonicalOrder(ts: seq<string>)
  {
    IsSubseq(ts, Canonical)
  }

  lemma CanonicalDistinct()
    ensures NoDup(Canonical)
  {
  }

  lemma {:induction false} SubseqMembers(ts: seq<string>, names: seq<string>, x: string)
    requires IsSubseq(ts, names) && x in ts
    ensures x in names
    decreases |names|
  {
    if ts[0] == names[0] {
      if x != ts[0] {
        assert x in ts[1..];
        SubseqMembers(ts[1..], names[1..], x);
      }
    } else {
      SubseqMembers(ts, names[1..], x);
    }
  }

  /** A subsequence of a duplicate-free list has no duplicates either. */
  lemma {:induction false} SubseqNoDup(ts: seq<string>, names: seq<string>)
    requires NoDup(names) && IsSubseq(ts, names)
    ensures NoDup(ts)
    decreases |names|
  {
    if ts != [] {
      if ts[0] == names[0] {
        SubseqNoDup(ts[1..], names[1..]);
        if ts[0] in ts[1..] {
          SubseqMembers(ts[1..], names[1..], ts[0]);
          assert false;
        }
        NoDupCons(ts[0], ts[1..]);
        assert [ts[0]] + ts[1..] == ts;
      } else {
        SubseqNoDup(ts, names[1..]);
      }
    }
  }

  lemma CanonicalNoDup(ts: seq<string>)
    requires InCanonicalOrder(ts)
    ensures NoDup(ts)
  {
    CanonicalDistinct();
    SubseqNoDup(ts, Canonical);
  }

  lemma {:induction false} SubseqSkip(ts: seq<string>, names: seq<string>)
    requires names != [] && IsSubseq(ts, names[1..])
    ensures IsSubseq(ts, names)
    decreases |names|, |ts|
  {
    if ts != [] && ts[0] == names[0] {
      SubseqTail(ts, names[1..]);
    }
  }

  lemma {:induction false} SubseqTail(ts: seq<string>, names: seq<string>)
    requires ts != [] && IsSubseq(ts, names)
    ensures IsSubseq(ts[1..], names)
    decreases |names|, |ts|
  {
    if ts[0] == names[0] {
      SubseqSkip(ts[1..], names);
    } else {
      SubseqTail(ts, names[1..]);
      SubseqSkip(ts[1..], names);
    }
  }

  lemma {:induction false} FilterSubseq(names: seq<string>, ticks: seq<bool>)
    requires |names| == |ticks|
    ensures IsSubseq(Filter(names, ticks), names)
  {
    if names != [] {
      FilterSubseq(names[1..], ticks[1..]);
      var rest := Filter(names[1..], ticks[1..]);
      if ticks[0] {
        assert ([names[0]] + rest)[1..] == rest;
      } else {
        assert Filter(names, ticks) == rest;
        SubseqSkip(rest, names);
      }
    }
  }

  lemma {:induction false} FilterMembers(names: seq<string>, ticks: seq<bool>, j: nat)
    requires |names| == |ticks| && j < |names| && NoDup(names)
    ensures names[j] in Filter(names, ticks) <==> ticks[j]
  {
    var rest := Filter(names[1..], ticks[1..]);
    assert Filter(names, ticks) == (if ticks[0] then [names[0]] else []) + rest;
    if j == 0 {
      if names[0] in rest {
        FilterSubseq(names[1..], ticks[1..]);
        SubseqMembers(rest, names[1..], names[0]);
      }
    } else {
      FilterMembers(names[1..], ticks[1..], j - 1);
      assert names[1..][j - 1] == names[j];
    }
  }

  /** The event list of a form follows the order of the checkboxes. */
  lemma SelectedInOrder(c: Checkboxes)
    ensures InCanonicalOrder(Selected(c))
  {
    FilterSubseq(Canonical, c.Ticks());
  }

  /** The event list of a form holds exactly the ticked events, each once,
      in the order the checkboxes are listed. */
  lemma SelectedSpec(c: Checkboxes)
    ensures InCanonicalOrder(Selected(c)) && NoDup(Selected(c))
    ensures forall j :: 0 <= j < |Canonical| ==> (Canonical[j] in Selected(c) <==> c.Ticks()[j])
  {
    FilterSubseq(Canonical, c.Ticks());
    CanonicalNoDup(Selected(c));
    CanonicalDistinct();
    forall j | 0 <= j < |Canonical|
      ensures Canonical[j] in Selected(c) <==> c.Ticks()[j]
    {
      FilterMembers(Canonical, c.Ticks(), j);
    }
  }

  /** What one checkbox adds to the list: its name when it is ticked. */
  function Pick(ticked: bool, name: string): (r: seq<string>)
    ensures |r| <= 1 && (name in r <==> ticked)
  {
    if ticked then [name] else []
  }

  /** Selecting among one more name appends that name when its box is
      ticked. */
  lemma {:induction false} FilterSnoc(names: seq<string>, ticks: seq<bool>, k: nat)
    requires |names| == |ticks| && k < |names|
    ensures Filter(names[..k + 1], ticks[..k + 1])
      == Filter(names[..k], ticks[..k]) + Pick(ticks[k], names[k])
    decreases k
  {
    if k > 0 {
      FilterSnoc(names[1..], ticks[1..], k - 1);
      assert names[..k + 1][1..] == names[1..][..k];
      assert ticks[..k + 1][1..] == ticks[1..][..k];
      assert names[..k][1..] == names[1..][..k - 1];
      assert ticks[..k][1..] == ticks[1..][..k - 1];
    }
  }

  /** Three more boxes handled one after the other. */
  lemma FilterThree(names: seq<string>, ticks: seq<bool>, k: nat)
    requires |names| == |ticks| && k + 3 <= |names|
    ensures Filter(names[..k + 3], ticks[..k + 3])
      == Filter(names[..k], ticks[..k]) + Pick(ticks[k], names[k])
         + Pick(ticks[k + 1], names[k + 1]) + Pick(ticks[k + 2], names[k + 2])
  {
    FilterSnoc(names, ticks, k);
    FilterSnoc(names, ticks, k + 1);
    FilterSnoc(names, ticks, k + 2);
  }

  /** The selection among the first three boxes. */
  lemma FilterFirstThree(n: seq<string>, t: seq<bool>)
    requires |n| == |t| && 3 <= |n|
    ensures Filter(n[..3], t[..3]) == Pick(t[0], n[0]) + Pick(t[1], n[1]) + Pick(t[2], n[2])
  {
    assert n[..0] == [] && t[..0] == [];
    FilterThree(n, t, 0);
    assert [] + Pick(t[0], n[0]) == Pick(t[0], n[0]);
  }

  /** The selection among six boxes, box by box from the first. */
  lemma FilterSix(n: seq<string>, t: seq<bool>)
    requires |n| == |t| == 6
    ensures Filter(n, t) == Pick(t[0], n[0]) + Pick(t[1], n[1]) + Pick(t[2], n[2])
      + Pick(t[3], n[3]) + Pick(t[4], n[4]) + Pick(t[5], n[5])
  {
    FilterFirstThree(n, t);
    FilterThree(n, t, 3);
    assert n[..6] == n && t[..6] == t;
  }

  /** The event list of a form, written out checkbox by checkbox. */
  lemma SelectedUnrolled(c: Checkboxes)
    ensures Selected(c) == Pick(c.push, "push") + Pick(c.pullRequest, "pull_request")
      + Pick(c.workflowDispatch, "workflow_dispatch") + Pick(c.schedule, "schedule")
      + Pick(c.issues, "issues") + Pick(c.release, "release")
  {
    FilterSix(Canonical, c.Ticks());
  }

  /** One runner's job, as the runner form hands it over. */
  datatype RunnerConfig = RunnerConfig(
    name: string,
    triggers: seq<string>,
    runsOn: string,
    cloud: string,
    accessKeySecret: string,
    secretKeySecret: string)

  /** Every job lists its events in checkbox order. */
  predicate JobsInOrder(cs: seq<RunnerConfig>)
  {
    forall k :: 0 <= k < |cs| ==> InCanonicalOrder(cs[k].triggers)
  }

  lemma JobsInOrderSnoc(cs: seq<RunnerConfig>, c: RunnerConfig)
    requires JobsInOrder(cs) && InCanonicalOrder(c.triggers)
    ensures JobsInOrder(cs + [c])
  {
    assert forall k :: 0 <= k < |cs| ==> (cs + [c])[k] == cs[k];
  }

  /** Every job's event list, job after job. */
  function JobTriggers(cs: seq<RunnerConfig>): seq<string>
  {
    if cs == [] then [] else JobTriggers(cs[..|cs| - 1]) + cs[|cs| - 1].triggers
  }

  lemma JobTriggersSnoc(cs: seq<RunnerConfig>, k: nat)
    requires k < |cs|
    ensures JobTriggers(cs[..k + 1]) == JobTriggers(cs[..k]) + cs[k].triggers
  {
    assert cs[..k + 1][..k] == cs[..k];
  }

  /** The events listed under `on:`: the global ones and then every job's,
      each once, in the order they are first seen. */
  function DedupUnion(globals: seq<string>, cs: seq<RunnerConfig>): seq<string>
  {
    Dedup(globals + JobTriggers(cs))
  }

  lemma {:induction false} JobTriggersMembers(cs: seq<RunnerConfig>, t: string)
    ensures t in JobTriggers(cs) <==> exists k :: 0 <= k < |cs| && t in cs[k].triggers
  {
    if cs != [] {
      var front := cs[..|cs| - 1];
      JobTriggersMembers(front, t);
      if t in JobTriggers(front) {
        var k :| 0 <= k < |front| && t in front[k].triggers;
        assert t in cs[k].triggers;
      }
      if exists k :: 0 <= k < |cs| && t in cs[k].triggers {
        var k :| 0 <= k < |cs| && t in cs[k].triggers;
        if k < |front| {
          assert t in front[k].triggers;
        }
      }
    }
  }

  /** Each event appears once under `on:`; it appears iff it is a global
      event or some job's event; the global events come first, in their own
      first-seen order, and the jobs' new events follow in job order. */
  lemma DedupUnionSpec(globals: seq<string>, cs: seq<RunnerConfig>, t: string)
    ensures NoDup(DedupUnion(globals, cs))
    ensures t in DedupUnion(globals, cs) <==>
      t in globals || exists k :: 0 <= k < |cs| && t in cs[k].triggers
    ensures DedupUnion(globals, cs) == Dedup(globals) + Dedup(Without(JobTriggers(cs), globals))
  {
    JobTriggersMembers(cs, t);
    DedupAppend(globals, JobTriggers(cs));
  }

  /** When the global events have no duplicates (the wizard's always do),
      they open the `on:` list exactly as given. */
  lemma GlobalsFirst(globals: seq<string>, cs: seq<RunnerConfig>)
    requires NoDup(globals)
    ensures globals <= DedupUnion(globals, cs)
  {
    DedupAppend(globals, JobTriggers(cs));
    DedupNoDup(globals);
  }

  predicate HasEnv(c: RunnerConfig)
  {
    c.cloud != "" || c.accessKeySecret != "" || c.secretKeySecret != ""
  }

  /** A reference to a repository secret in GitHub Actions expression syntax. */
  function SecretRef(name: string): string
  {
    "${{ secrets." + name + " }}"
  }

  /** The variables under `env:`, each only when its field is set. */
  function EnvLines(c: RunnerConfig): seq<string>
  {
    (if c.cloud != "" then ["      CLOUD_PROVIDER: " + c.cloud] else [])
    + (if c.accessKeySecret != "" then ["      ACCESS_KEY: " + SecretRef(c.accessKeySecret)] else [])
    + (if c.secretKeySecret != "" then ["      SECRET_KEY: " + SecretRef(c.secretKeySecret)] else [])
  }

  function EnvSection(c: RunnerConfig): seq<string>
  {
    if HasEnv(c) then ["    env:"] + EnvLines(c) else []
  }

  /** An `env:` block is never empty: it is there exactly when some variable
      line is, and it holds one line per set field. */
  lemma EnvSpec(c: RunnerConfig)
    ensures HasEnv(c) <==> EnvLines(c) != []
    ensures |EnvLines(c)| ==
      (if c.cloud != "" then 1 else 0)
      + (if c.accessKeySecret != "" then 1 else 0)
      + (if c.secretKeySecret != "" then 1 else 0)
  {
  }

  function Condition(t: string): string
  {
    "github.event_name == '" + t + "'"
  }

  /** The conditions of a job's events, separated by " || ". */
  function JoinConditions(ts: seq<string>): string
  {
    if ts == [] then []
    else if |ts| == 1 then Condition(ts[0])
    else Condition(ts[0]) + " || " + JoinConditions(ts[1..])
  }

  /** Appending one event adds a separator (unless it is the first) and its
      condition at the end; this is how the indexed loop builds the line. */
  lemma {:induction false} JoinSnoc(ts: seq<string>, t: string)
    ensures JoinConditions(ts + [t]) ==
      (if ts == [] then [] else JoinConditions(ts) + " || ") + Condition(t)
  {
    if |ts| == 1 {
      assert (ts + [t])[1..] == [t];
    } else if |ts| > 1 {
      assert (ts + [t])[1..] == ts[1..] + [t];
      JoinSnoc(ts[1..], t);
    }
  }

  function ConditionsLength(ts: seq<string>): nat
  {
    if ts == [] then 0 else |Condition(ts[0])| + ConditionsLength(ts[1..])
  }

  /** k events give k conditions and k - 1 separators of four characters. */
  lemma {:induction false} JoinLength(ts: seq<string>)
    requires ts != []
    ensures |JoinConditions(ts)| == ConditionsLength(ts) + 4 * (|ts| - 1)
  {
    if |ts| > 1 {
      JoinLength(ts[1..]);
    }
  }

  function IfLines(ts: seq<string>): seq<string>
  {
    if ts == [] then [] else ["    if: " + JoinConditions(ts)]
  }

  const CheckoutLines: seq<string> := ["    steps:", "      - uses: actions/checkout@v3"]

  /** The block of one job. */
  function JobLines(c: RunnerConfig): seq<string>
  {
    ["  " + c.name + ":", "    runs-on: " + c.runsOn]
    + EnvSection(c) + IfLines(c.triggers) + CheckoutLines
  }

  function RenderJob(c: RunnerConfig): string
  {
    Unlines(JobLines(c))
  }

  /** The shape of a job block: its name and runner first; `env:` third
      exactly when a variable is set, followed by its variables; the `if:`
      line third from last exactly when the job has events; the checkout
      step last, whatever the fields are. */
  lemma JobLinesShape(c: RunnerConfig)
    ensures var ls := JobLines(c);
      && |ls| == 4 + |EnvSection(c)| + |IfLines(c.triggers)|
      && ls[0] == "  " + c.name + ":"
      && ls[1] == "    runs-on: " + c.runsOn
      && (ls[2] == "    env:" <==> HasEnv(c))
      && (HasEnv(c) ==> ls[3..3 + |EnvLines(c)|] == EnvLines(c))
      && (ls[|ls| - 3] == "    if: " + JoinConditions(c.triggers) <==> c.triggers != [])
      && ls[|ls| - 2..] == CheckoutLines
  {
    var ls := JobLines(c);
    var head := ["  " + c.name + ":", "    runs-on: " + c.runsOn];
    var env, cond := EnvSection(c), IfLines(c.triggers);
    assert ls == head + env + cond + CheckoutLines;
    var ifLine := "    if: " + JoinConditions(c.triggers);
    assert ifLine[4] == 'i';
    if !HasEnv(c) {
      assert ls[2] == (cond + CheckoutLines)[0];
      assert ls[2][4] != 'e';
    }
    if c.triggers == [] {
      var before := ls[|ls| - 3];
      if HasEnv(c) {
        EnvSpec(c);
        var envLines := EnvLines(c);
        assert before == envLines[|envLines| - 1];
        assert before[4] == ' ';
      } else {
        assert before == head[1];
        assert before[4] == 'r';
      }
    }
  }

  /** The lines of a sequence of blocks, block after block. */
  function Concat(bs: seq<seq<string>>): seq<string>
  {
    if bs == [] then [] else Concat(bs[..|bs| - 1]) + bs[|bs| - 1]
  }

  lemma {:induction false} ConcatAppend(a: seq<seq<string>>, b: seq<seq<string>>)
    ensures Concat(a + b) == Concat(a) + Concat(b)
    decreases |b|
  {
    if b == [] {
      assert a + b == a;
    } else {
      var front := b[..|b| - 1];
      assert (a + b)[..|a + b| - 1] == a + front;
      assert (a + b)[|a + b| - 1] == b[|b| - 1];
      ConcatAppend(a, front);
    }
  }

  function JobBlocks(cs: seq<RunnerConfig>): seq<seq<string>>
  {
    seq(|cs|, k requires 0 <= k < |cs| => JobLines(cs[k]))
  }

  /** The blocks of all jobs, in list order. */
  function JobsLines(cs: seq<RunnerConfig>): seq<string>
  {
    Concat(JobBlocks(cs))
  }

  /** Adding job k after the first k jobs adds its block at the end. */
  lemma JobsLinesSnoc(cs: seq<RunnerConfig>, k: nat)
    requires k < |cs|
    ensures JobsLines(cs[..k + 1]) == JobsLines(cs[..k]) + JobLines(cs[k])
  {
    assert JobBlocks(cs[..k + 1]) == JobBlocks(cs[..k]) + [JobLines(cs[k])];
    ConcatAppend(JobBlocks(cs[..k]), [JobLines(cs[k])]);
    assert Concat([JobLines(cs[k])]) == JobLines(cs[k]) by {
      assert [JobLines(cs[k])][..0] == [];
    }
  }

  /** There is one block per job, in list order: the block of job k sits
      between the blocks of the jobs before it and those after it. */
  lemma JobBlock(cs: seq<RunnerConfig>, k: nat)
    requires k < |cs|
    ensures JobsLines(cs) == JobsLines(cs[..k]) + JobLines(cs[k]) + JobsLines(cs[k + 1..])
  {
    var bs := JobBlocks(cs);
    assert bs == JobBlocks(cs[..k]) + [JobLines(cs[k])] + JobBlocks(cs[k + 1..]);
    ConcatAppend(JobBlocks(cs[..k]) + [JobLines(cs[k])], JobBlocks(cs[k + 1..]));
    ConcatAppend(JobBlocks(cs[..k]), [JobLines(cs[k])]);
    assert Concat([JobLines(cs[k])]) == JobLines(cs[k]) by {
      assert [JobLines(cs[k])][..0] == [];
    }
  }

  function TriggerLine(t: string): string
  {
    "  " + t + ":"
  }

  function TriggerLines(ts: seq<string>): seq<string>
  {
    seq(|ts|, i requires 0 <= i < |ts| => TriggerLine(ts[i]))
  }

  const Title := "name: Generated Workflow"

  /** The whole workflow, line by line. */
  function WorkflowLines(globals: seq<string>, cs: seq<RunnerConfig>): seq<string>
  {
    [Title, "on:"] + TriggerLines(DedupUnion(globals, cs)) + ["jobs:"] + JobsLines(cs)
  }

  /** The workflow text that is saved as the .yml file. */
  function RenderYaml(globals: seq<string>, cs: seq<RunnerConfig>): string
  {
    Unlines(WorkflowLines(globals, cs))
  }

  /** The workflow's lines: the title and `on:`, one line per event of the
      `on:` list, `jobs:` after all of them, then the job blocks. */
  lemma WorkflowShape(globals: seq<string>, cs: seq<RunnerConfig>)
    ensures var ts, ls := DedupUnion(globals, cs), WorkflowLines(globals, cs);
      && |ls| == 3 + |ts| + |JobsLines(cs)|
      && ls[0] == Title && ls[1] == "on:"
      && (forall i :: 0 <= i < |ts| ==> ls[2 + i] == "  " + ts[i] + ":")
      && ls[2 + |ts|] == "jobs:"
      && ls[3 + |ts|..] == JobsLines(cs)
  {
    var ts, ls := DedupUnion(globals, cs), WorkflowLines(globals, cs);
    var head := [Title, "on:"] + TriggerLines(ts);
    assert ls == head + ["jobs:"] + JobsLines(cs);
    assert ls[3 + |ts|..] == JobsLines(cs);
  }

  /** The text starts with the title and `on:`, and every line of it, the
      last one included, ends in a newline. */
  lemma RenderYamlFrame(globals: seq<string>, cs: seq<RunnerConfig>)
    ensures "name: Generated Workflow\non:\n" <= RenderYaml(globals, cs)
    ensures var s := RenderYaml(globals, cs); |s| > 0 && s[|s| - 1] == '\n'
  {
    var ls := WorkflowLines(globals, cs);
    assert ls == [Title, "on:"] + ls[2..];
    UnlinesPrefix([Title, "on:"], ls[2..]);
    UnlinesPair(Title, "on:");
    UnlinesTerminated(ls);
  }

  /** No text the wizard puts into the workflow holds a line break. */
  predicate ConfigOnOneLine(c: RunnerConfig)
  {
    && NoNewline(c.name) && NoNewline(c.runsOn) && NoNewline(c.cloud)
    && NoNewline(c.accessKeySecret) && NoNewline(c.secretKeySecret)
    && AllNoNewline(c.triggers)
  }

  predicate AllOnOneLine(globals: seq<string>, cs: seq<RunnerConfig>)
  {
    && AllNoNewline(globals)
    && forall k :: 0 <= k < |cs| ==> ConfigOnOneLine(cs[k])
  }

  lemma {:induction false} JoinOnOneLine(ts: seq<string>)
    requires AllNoNewline(ts)
    ensures NoNewline(JoinConditions(ts))
  {
    if |ts| > 1 {
      JoinOnOneLine(ts[1..]);
    }
  }

  lemma NoNewlineAppend(a: string, b: string)
    requires NoNewline(a) && NoNewline(b)
    ensures NoNewline(a + b)
  {
  }

  lemma EnvOnOneLine(c: RunnerConfig)
    requires ConfigOnOneLine(c)
    ensures AllNoNewline(EnvSection(c))
  {
    NoNewlineAppend("      CLOUD_PROVIDER: ", c.cloud);
    NoNewlineAppend("${{ secrets." + c.accessKeySecret, " }}");
    NoNewlineAppend("${{ secrets." + c.secretKeySecret, " }}");
    NoNewlineAppend("      ACCESS_KEY: ", SecretRef(c.accessKeySecret));
    NoNewlineAppend("      SECRET_KEY: ", SecretRef(c.secretKeySecret));
  }

  lemma HeadOnOneLine(c: RunnerConfig)
    requires NoNewline(c.name) && NoNewline(c.runsOn)
    ensures AllNoNewline(["  " + c.name + ":", "    runs-on: " + c.runsOn])
  {
    NoNewlineAppend("  " + c.name, ":");
    NoNewlineAppend("    runs-on: ", c.runsOn);
  }

  lemma IfOnOneLine(ts: seq<string>)
    requires AllNoNewline(ts)
    ensures AllNoNewline(IfLines(ts))
  {
    JoinOnOneLine(ts);
    NoNewlineAppend("    if: ", JoinConditions(ts));
  }

  lemma JobOnOneLine(c: RunnerConfig)
    requires ConfigOnOneLine(c)
    ensures AllNoNewline(JobLines(c))
  {
    var head := ["  " + c.name + ":", "    runs-on: " + c.runsOn];
    var env, cond := EnvSection(c), IfLines(c.triggers);
    HeadOnOneLine(c);
    EnvOnOneLine(c);
    IfOnOneLine(c.triggers);
    AllNoNewlineAppend(head, env);
    AllNoNewlineAppend(head + env, cond);
    AllNoNewlineAppend(head + env + cond, CheckoutLines);
  }

  lemma {:induction false} JobsOnOneLine(cs: seq<RunnerConfig>)
    requires forall k :: 0 <= k < |cs| ==> ConfigOnOneLine(cs[k])
    ensures AllNoNewline(JobsLines(cs))
  {
    if cs != [] {
      var front := cs[..|cs| - 1];
      JobsOnOneLine(front);
      JobOnOneLine(cs[|cs| - 1]);
      assert JobBlocks(cs)[..|cs| - 1] == JobBlocks(front);
      AllNoNewlineAppend(JobsLines(front), JobLines(cs[|cs| - 1]));
    }
  }

  /** No event under `on:` holds a line break. */
  lemma OnOneLine(globals: seq<string>, cs: seq<RunnerConfig>)
    requires AllOnOneLine(globals, cs)
    ensures AllNoNewline(DedupUnion(globals, cs))
  {
    var ts := DedupUnion(globals, cs);
    forall i | 0 <= i < |ts|
      ensures NoNewline(ts[i])
    {
      assert ts[i] in ts;
      DedupUnionSpec(globals, cs, ts[i]);
      if ts[i] !in globals {
        var k :| 0 <= k < |cs| && ts[i] in cs[k].triggers;
        assert ConfigOnOneLine(cs[k]);
      }
    }
  }

  lemma TriggerLinesOnOneLine(ts: seq<string>)
    requires AllNoNewline(ts)
    ensures AllNoNewline(TriggerLines(ts))
  {
    forall i | 0 <= i < |ts|
      ensures NoNewline(TriggerLine(ts[i]))
    {
      NoNewlineAppend("  " + ts[i], ":");
    }
  }

  lemma HeadersOnOneLine()
    ensures AllNoNewline([Title, "on:"]) && AllNoNewline(["jobs:"])
  {
  }

  lemma WorkflowOnOneLine(globals: seq<string>, cs: seq<RunnerConfig>)
    requires AllOnOneLine(globals, cs)
    ensures AllNoNewline(WorkflowLines(globals, cs))
  {
    var ts := DedupUnion(globals, cs);
    OnOneLine(globals, cs);
    TriggerLinesOnOneLine(ts);
    JobsOnOneLine(cs);
    var head: seq<string> := [Title, "on:"];
    HeadersOnOneLine();
    AllNoNewlineAppend(head, TriggerLines(ts));
    AllNoNewlineAppend(head + TriggerLines(ts), ["jobs:"]);
    AllNoNewlineAppend(head + TriggerLines(ts) + ["jobs:"], JobsLines(cs));
  }

  /** Read back line by line, the text gives exactly the workflow's lines,
      provided no field holds a line break. */
  lemma RenderYamlLines(globals: seq<string>, cs: seq<RunnerConfig>)
    requires AllOnOneLine(globals, cs)
    ensures SplitLines(RenderYaml(globals, cs)) == WorkflowLines(globals, cs)
  {
    WorkflowOnOneLine(globals, cs);
    SplitUnlines(WorkflowLines(globals, cs));
  }
}
