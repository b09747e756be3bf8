/** The wizard: the state its screens accumulate, the hand-over of each
    runner form, and the StringBuilder code that writes the workflow. */
module Builder {
  import opened Strings
  import opened OrderedSet
  import opened Workflow

  /** The screen the wizard shows. */
  datatype Scene = RunnerCountScene | RunnerConfigScene | SummaryScene

  /** What the user entered on one runner form: the text fields as typed,
      the two combo-box choices and the event checkboxes. */
  datatype RunnerForm = RunnerForm(
    name: string, runsOn: string, cloud: string,
    accessKey: string, secretKey: string, checks: Checkboxes)

  /** The job a filled-in form stands for. */
  function FormConfig(f: RunnerForm): RunnerConfig
  {
    RunnerConfig(Trim(f.name), Selected(f.checks), f.runsOn, f.cloud, Trim(f.accessKey), Trim(f.secretKey))
  }

  /** The job of a form carries the ticked events in checkbox order, and its
      name and secret names have no blank ends. */
  lemma FormConfigSpec(f: RunnerForm)
    ensures InCanonicalOrder(FormConfig(f).triggers) && NoDup(FormConfig(f).triggers)
    ensures forall j :: 0 <= j < |Canonical| ==>
      (Canonical[j] in FormConfig(f).triggers <==> f.checks.Ticks()[j])
    ensures var n := FormConfig(f).name; n == [] || (!IsBlank(n[0]) && !IsBlank(n[|n| - 1]))
  {
    SelectedSpec(f.checks);
  }

  /** Builds the event list of a form, one checkbox after the other. */
  method CollectTriggers(c: Checkboxes) returns (ts: seq<string>)
    ensures ts == Selected(c)
  {
    ts := [];
    if c.push { ts := ts + ["push"]; }
    assert ts == Pick(c.push, "push");
    if c.pullRequest { ts := ts + ["pull_request"]; }
    assert ts == Pick(c.push, "push") + Pick(c.pullRequest, "pull_request");
    if c.workflowDispatch { ts := ts + ["workflow_dispatch"]; }
    assert ts == Pick(c.push, "push") + Pick(c.pullRequest, "pull_request")
      + Pick(c.workflowDispatch, "workflow_dispatch");
    if c.schedule { ts := ts + ["schedule"]; }
    assert ts == Pick(c.push, "push") + Pick(c.pullRequest, "pull_request")
      + Pick(c.workflowDispatch, "workflow_dispatch") + Pick(c.schedule, "schedule");
    if c.issues { ts := ts + ["issues"]; }
    assert ts == Pick(c.push, "push") + Pick(c.pullRequest, "pull_request")
      + Pick(c.workflowDispatch, "workflow_dispatch") + Pick(c.schedule, "schedule")
      + Pick(c.issues, "issues");
    if c.release { ts := ts + ["release"]; }
    SelectedUnrolled(c);
  }

  /** Reads a runner form into a job. */
  method ToConfig(f: RunnerForm) returns (cfg: RunnerConfig)
    ensures cfg == FormConfig(f)
  {
    var triggers := CollectTriggers(f.checks);
    cfg := RunnerConfig(Trim(f.name), triggers, f.runsOn, f.cloud, Trim(f.accessKey), Trim(f.secretKey));
  }

  /** LinkedHashSet.addAll: adds the elements of `xs` to the set `s`. */
  method AddAll(s: seq<string>, xs: seq<string>) returns (r: seq<string>)
    ensures r == InsertAll(s, xs)
  {
    r := s;
    for i := 0 to |xs|
      invariant InsertAll(r, xs[i..]) == InsertAll(s, xs)
    {
      assert xs[i..][0] == xs[i] && xs[i..][1..] == xs[i + 1..];
      if xs[i] !in r {
        r := r + [xs[i]];
      }
    }
  }

  /** The body of a job's `if:` line, built by the indexed loop. */
  method BuildConditions(ts: seq<string>) returns (s: string)
    ensures s == JoinConditions(ts)
  {
    s := "";
    for i := 0 to |ts|
      invariant s == JoinConditions(ts[..i])
    {
      if i > 0 {
        s := s + " || ";
      }
      s := s + "github.event_name == '" + ts[i] + "'";
      JoinSnoc(ts[..i], ts[i]);
      assert ts[..i + 1] == ts[..i] + [ts[i]];
    }
    assert ts[..|ts|] == ts;
  }

  lemma UnlinesSnoc(ls: seq<string>, l: string)
    ensures Unlines(ls + [l]) == Unlines(ls) + l + "\n"
  {
    UnlinesAppend(ls, [l]);
  }

  /** The lines so far with one more, for the proofs of the builders. */
  ghost function AddLine(ls: seq<string>, l: string): (r: seq<string>)
    ensures r == ls + [l] && Unlines(r) == Unlines(ls) + l + "\n"
  {
    UnlinesSnoc(ls, l);
    ls + [l]
  }

  /** The `env:` block of a job, with a line for each set field. */
  method BuildEnv(c: RunnerConfig) returns (s: string)
    ensures s == Unlines(EnvSection(c))
  {
    ghost var ls: seq<string> := [];
    s := "";
    if c.cloud != "" || c.accessKeySecret != "" || c.secretKeySecret != "" {
      s, ls := s + "    env:" + "\n", AddLine(ls, "    env:");
      if c.cloud != "" {
        s, ls := s + ("      CLOUD_PROVIDER: " + c.cloud) + "\n", AddLine(ls, "      CLOUD_PROVIDER: " + c.cloud);
      }
      if c.accessKeySecret != "" {
        s, ls := s + ("      ACCESS_KEY: " + SecretRef(c.accessKeySecret)) + "\n",
          AddLine(ls, "      ACCESS_KEY: " + SecretRef(c.accessKeySecret));
      }
      if c.secretKeySecret != "" {
        s, ls := s + ("      SECRET_KEY: " + SecretRef(c.secretKeySecret)) + "\n",
          AddLine(ls, "      SECRET_KEY: " + SecretRef(c.secretKeySecret));
      }
    }
    assert ls == EnvSection(c);
  }

  /** Appending two lines one after the other appends their text. */
  lemma AppendPair(x: string, a: string, b: string)
    ensures x + a + "\n" + b + "\n" == x + Unlines([a, b])
  {
    UnlinesPair(a, b);
  }

  /** The text of a job is the text of its four parts in turn. */
  lemma JobText(c: RunnerConfig)
    ensures RenderJob(c) ==
      Unlines(["  " + c.name + ":", "    runs-on: " + c.runsOn]) + Unlines(EnvSection(c))
      + Unlines(IfLines(c.triggers)) + Unlines(CheckoutLines)
  {
    var head := ["  " + c.name + ":", "    runs-on: " + c.runsOn];
    var env, cond := EnvSection(c), IfLines(c.triggers);
    UnlinesAppend(head + env + cond, CheckoutLines);
    UnlinesAppend(head + env, cond);
    UnlinesAppend(head, env);
  }

  /** The `if:` line of a job, present when the job has events. */
  method BuildIf(ts: seq<string>) returns (s: string)
    ensures s == Unlines(IfLines(ts))
  {
    s := "";
    if ts != [] {
      var conds := BuildConditions(ts);
      s := s + ("    if: " + conds) + "\n";
      UnlinesSnoc([], "    if: " + conds);
    }
  }

  /** The first two lines of a job: its key and its runner. */
  method BuildJobHead(c: RunnerConfig) returns (s: string)
    ensures s == Unlines(["  " + c.name + ":", "    runs-on: " + c.runsOn])
  {
    s := ("  " + c.name + ":") + "\n";
    s := s + ("    runs-on: " + c.runsOn) + "\n";
    UnlinesPair("  " + c.name + ":", "    runs-on: " + c.runsOn);
  }

  /** The block of one job: its name and runner, its `env:` block, its `if:`
      line and the checkout step. */
  method BuildJob(c: RunnerConfig) returns (s: string)
    ensures s == RenderJob(c)
  {
    s := BuildJobHead(c);
    var env := BuildEnv(c);
    s := s + env;
    var cond := BuildIf(c.triggers);
    s := s + cond;
    AppendPair(s, CheckoutLines[0], CheckoutLines[1]);
    s := s + "    steps:" + "\n";
    s := s + "      - uses: actions/checkout@v3" + "\n";
    JobText(c);
  }

  /** Writing one more event line under `on:`. */
  lemma TriggerStep(pre: seq<string>, ts: seq<string>, i: nat)
    requires i < |ts|
    ensures Unlines(pre + TriggerLines(ts[..i])) + "  " + ts[i] + ":\n"
      == Unlines(pre + TriggerLines(ts[..i + 1]))
  {
    UnlinesSnoc(pre + TriggerLines(ts[..i]), TriggerLine(ts[i]));
    assert TriggerLines(ts[..i + 1]) == TriggerLines(ts[..i]) + [TriggerLine(ts[i])];
    assert pre + TriggerLines(ts[..i + 1]) == pre + TriggerLines(ts[..i]) + [TriggerLine(ts[i])];
  }

  /** Writing one more job block under `jobs:`. */
  lemma JobStep(head: seq<string>, cs: seq<RunnerConfig>, k: nat)
    requires k < |cs|
    ensures Unlines(head + JobsLines(cs[..k])) + RenderJob(cs[k])
      == Unlines(head + JobsLines(cs[..k + 1]))
  {
    JobsLinesSnoc(cs, k);
    assert head + JobsLines(cs[..k + 1]) == (head + JobsLines(cs[..k])) + JobLines(cs[k]);
    UnlinesAppend(head + JobsLines(cs[..k]), JobLines(cs[k]));
  }

  /** The LinkedHashSet of the `on:` section: the global events, then each
      job's events in turn. */
  method OnTriggers(globals: seq<string>, cs: seq<RunnerConfig>) returns (triggers: seq<string>)
    ensures triggers == DedupUnion(globals, cs)
  {
    ghost var start := InsertAll([], globals);
    triggers := AddAll([], globals);
    assert cs[..0] == [];
    for k := 0 to |cs|
      invariant triggers == InsertAll(start, JobTriggers(cs[..k]))
    {
      InsertAllAppend(start, JobTriggers(cs[..k]), cs[k].triggers);
      JobTriggersSnoc(cs, k);
      triggers := AddAll(triggers, cs[k].triggers);
    }
    assert cs[..|cs|] == cs;
    InsertAllAppend([], globals, JobTriggers(cs));
    InsertAllEmpty(globals + JobTriggers(cs));
  }

  /** One job per completed runner form, never more than the runner count;
      the runner screen is only shown while forms remain, the summary only
      once all are in; every event list is in checkbox order. */
  predicate WizardInvariant(runnerCount: int, configs: seq<RunnerConfig>, currentRunner: int,
                            workflowTriggers: seq<string>, scene: Scene)
  {
    && 0 <= currentRunner == |configs| <= runnerCount
    && (scene == RunnerConfigScene ==> currentRunner < runnerCount)
    && (scene == SummaryScene ==> currentRunner == runnerCount)
    && InCanonicalOrder(workflowTriggers)
    && JobsInOrder(configs)
  }

  /** Submitting a runner form keeps the invariant: the job count catches up
      with the runner count exactly when the summary is shown. */
  lemma SubmitRunnerKeepsInvariant(runnerCount: int, configs: seq<RunnerConfig>, currentRunner: int,
                                   workflowTriggers: seq<string>, cfg: RunnerConfig)
    requires WizardInvariant(runnerCount, configs, currentRunner, workflowTriggers, RunnerConfigScene)
    requires InCanonicalOrder(cfg.triggers)
    ensures var next := if currentRunner + 1 < runnerCount then RunnerConfigScene else SummaryScene;
      && WizardInvariant(runnerCount, configs + [cfg], currentRunner + 1, workflowTriggers, next)
      && (next == SummaryScene <==> |configs + [cfg]| == runnerCount)
  {
    JobsInOrderSnoc(configs, cfg);
  }

  /** The wizard's state between screens. */
  class GitHubActionsBuilderApp {
    var runnerCount: int
    var configs: seq<RunnerConfig>
    var currentRunner: int
    var workflowTriggers: seq<string>
    var scene: Scene

    /** One job per completed runner form, never more than the runner count;
        the runner screen is only shown while forms remain, the summary only
        once all are in; every event list is in checkbox order. */
    ghost predicate Valid()
      reads this
    {
      WizardInvariant(runnerCount, configs, currentRunner, workflowTriggers, scene)
    }

    /** The application as it starts: on the runner-count screen, nothing
        collected. */
    constructor ()
      ensures Valid()
      ensures scene == RunnerCountScene
      ensures runnerCount == 0 && currentRunner == 0
      ensures configs == [] && workflowTriggers == []
    {
      runnerCount := 0;
      configs := [];
      currentRunner := 0;
      workflowTriggers := [];
      scene := RunnerCountScene;
    }

    /** "Next" on the runner-count screen: records the count and the global
        events, forgets any jobs collected before, and opens the first
        runner form. */
    method SubmitRunnerCount(n: int, checks: Checkboxes)
      requires 1 <= n
      modifies this
      ensures Valid()
      ensures runnerCount == n && workflowTriggers == Selected(checks)
      ensures configs == [] && currentRunner == 0
      ensures scene == RunnerConfigScene
    {
      runnerCount := n;
      workflowTriggers := CollectTriggers(checks);
      SelectedInOrder(checks);
      configs := [];
      currentRunner := 0;
      scene := RunnerConfigScene;
    }

    /** "Next" (or "Finish") on a runner form: appends its job, counts it,
        and shows the next form or, after the last one, the summary. */
    method SubmitRunner(f: RunnerForm)
      requires Valid() && scene == RunnerConfigScene
      modifies this
      ensures Valid()
      ensures configs == old(configs) + [FormConfig(f)]
      ensures currentRunner == old(currentRunner) + 1
      ensures runnerCount == old(runnerCount) && workflowTriggers == old(workflowTriggers)
      ensures scene == (if currentRunner < runnerCount then RunnerConfigScene else SummaryScene)
      ensures scene == SummaryScene <==> |configs| == runnerCount
    {
      SelectedInOrder(f.checks);
      SubmitRunnerKeepsInvariant(runnerCount, configs, currentRunner, workflowTriggers, FormConfig(f));
      var cfg := ToConfig(f);
      configs := configs + [cfg];
      currentRunner := currentRunner + 1;
      if currentRunner < runnerCount {
        scene := RunnerConfigScene;
      } else {
        scene := SummaryScene;
      }
    }

    /** Writes the workflow from the global events and the collected jobs;
        it changes nothing. */
    method BuildYaml() returns (yaml: string)
      ensures yaml == RenderYaml(workflowTriggers, configs)
    {
      var triggers := OnTriggers(workflowTriggers, configs);
      var sb := "name: Generated Workflow\n";
      sb := sb + "on:\n";
      UnlinesPair(Title, "on:");
      assert triggers[..0] == [] && [Title, "on:"] + TriggerLines([]) == [Title, "on:"];
      for i := 0 to |triggers|
        invariant sb == Unlines([Title, "on:"] + TriggerLines(triggers[..i]))
      {
        TriggerStep([Title, "on:"], triggers, i);
        sb := sb + "  " + triggers[i] + ":\n";
      }
      assert triggers[..|triggers|] == triggers;
      ghost var head := [Title, "on:"] + TriggerLines(triggers) + ["jobs:"];
      UnlinesSnoc([Title, "on:"] + TriggerLines(triggers), "jobs:");
      sb := sb + "jobs:\n";
      assert configs[..0] == [] && head + JobsLines([]) == head;
      for k := 0 to |configs|
        invariant sb == Unlines(head + JobsLines(configs[..k]))
      {
        var job := BuildJob(configs[k]);
        JobStep(head, configs, k);
        sb := sb + job;
      }
      assert configs[..|configs|] == configs;
      yaml := sb;
    }
  }
}
