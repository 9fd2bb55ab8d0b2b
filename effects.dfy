/** The external effects of the extraction pipeline, as values.

    Every awaited call of the pipeline (a filesystem call, `run`, `runPiped`)
    becomes a `Command` appended to a trace. Whether it succeeded is decided
    by an outcome oracle that sees the whole trace up to and including that
    command, so an outcome may depend on everything that happened before
    (a container that exists, a directory already written). */
module Effects {

  /** One program invocation: the program and its argument vector. */
  datatype Process = Process(program: string, args: seq<string>)

  datatype Command =
    | MakeDir(path: string)                       // fs.mkdir(path, { recursive: true })
    | WriteFile(path: string, content: string)    // fs.writeFile(path, content)
    | Exec(process: Process)                      // run(program, args)
    | Pipe(producer: Process, consumer: Process)  // runPiped(producer, consumer), one outcome
    | ReadDir(path: string)                       // fs.readdir(path)
    | Rename(from: string, to: string)            // fs.rename(from, to)

  /** How a run ended: every step passed, or the command that threw. */
  datatype Status = Done | Failed(at: Command)

  /** The commands a run emitted, in order, and how it ended. */
  datatype Run = Run(trace: seq<Command>, status: Status)

  /** An awaited step. `ignoreFailure` marks a call wrapped in a try/catch
      whose catch block is empty: its failure does not end the run. */
  datatype Step = Step(cmd: Command, ignoreFailure: bool)

  /** The outcome oracle: does the last command of `history` succeed? */
  type Oracle = seq<Command> -> bool

  /** The `j`-th command of `trace`, issued for step `k + j` of the plan, did
      not end the run: it succeeded, or its failure is ignored. */
  predicate Passed(plan: seq<Step>, k: nat, history: seq<Command>, trace: seq<Command>, succeeds: Oracle, j: nat)
    requires j < |trace| && k + j < |plan|
  {
    succeeds(history + trace[..j + 1]) || plan[k + j].ignoreFailure
  }

  /** Performs the steps of `plan` from step `k` on, one after another, each
      awaited before the next is issued; the first failure that is not ignored
      propagates and nothing after it is issued. `history` is what was issued
      before step `k`. */
  function ExecuteFrom(plan: seq<Step>, k: nat, history: seq<Command>, succeeds: Oracle): (r: Run)
    requires k <= |plan|
    ensures |r.trace| <= |plan| - k
    // the run only finishes once every step has been issued
    ensures r.status == Done ==> |r.trace| == |plan| - k
    decreases |plan| - k
  {
    if k == |plan| then Run([], Done)
    else
      var c := plan[k].cmd;
      if !succeeds(history + [c]) && !plan[k].ignoreFailure then Run([c], Failed(c))
      else
        var rest := ExecuteFrom(plan, k + 1, history + [c], succeeds);
        Run([c] + rest.trace, rest.status)
  }

  /** The whole plan, run after `history`. */
  function Execute(plan: seq<Step>, history: seq<Command>, succeeds: Oracle): Run {
    ExecuteFrom(plan, 0, history, succeeds)
  }

  /** What is emitted is the plan's commands, in plan order. */
  lemma {:induction false} ExecuteFollowsPlan(plan: seq<Step>, k: nat, history: seq<Command>, succeeds: Oracle, r: Run)
    requires k <= |plan| && r == ExecuteFrom(plan, k, history, succeeds)
    ensures forall j :: 0 <= j < |r.trace| ==> r.trace[j] == plan[k + j].cmd
    decreases |plan| - k
  {
    if k < |plan| {
      var c := plan[k].cmd;
      if succeeds(history + [c]) || plan[k].ignoreFailure {
        var rest := ExecuteFrom(plan, k + 1, history + [c], succeeds);
        ExecuteFollowsPlan(plan, k + 1, history + [c], succeeds, rest);
        assert r.trace == [c] + rest.trace;
      }
    }
  }

  /** A failure ends the run: it is the last command emitted, it failed, and
      its step was not one whose failure is ignored. */
  lemma {:induction false} ExecuteFailureIsLast(plan: seq<Step>, k: nat, history: seq<Command>, succeeds: Oracle, r: Run)
    requires k <= |plan| && r == ExecuteFrom(plan, k, history, succeeds)
    ensures r.status.Failed? ==>
        && r.trace != []
        && r.status.at == r.trace[|r.trace| - 1]
        && !succeeds(history + r.trace)
        && !plan[k + |r.trace| - 1].ignoreFailure
    decreases |plan| - k
  {
    if k < |plan| {
      var c := plan[k].cmd;
      if succeeds(history + [c]) || plan[k].ignoreFailure {
        var rest := ExecuteFrom(plan, k + 1, history + [c], succeeds);
        ExecuteFailureIsLast(plan, k + 1, history + [c], succeeds, rest);
        assert r == Run([c] + rest.trace, rest.status);
        Associative(history, [c], rest.trace);
      }
    }
  }

  /** Every command emitted before the run stopped passed: it succeeded, or
      its failure was ignored. With `ExecuteFollowsPlan`,
      `ExecuteFailureIsLast` and the contract of `ExecuteFrom`, this
      determines the run completely. */
  lemma {:induction false} ExecutePassedBeforeStop(plan: seq<Step>, k: nat, history: seq<Command>, succeeds: Oracle, r: Run)
    requires k <= |plan| && r == ExecuteFrom(plan, k, history, succeeds)
    ensures forall j :: 0 <= j < |r.trace| && (r.status == Done || j < |r.trace| - 1) ==>
                        Passed(plan, k, history, r.trace, succeeds, j)
    decreases |plan| - k
  {
    if k < |plan| {
      var c := plan[k].cmd;
      if succeeds(history + [c]) || plan[k].ignoreFailure {
        var rest := ExecuteFrom(plan, k + 1, history + [c], succeeds);
        ExecutePassedBeforeStop(plan, k + 1, history + [c], succeeds, rest);
        assert r == Run([c] + rest.trace, rest.status);
        forall j | 0 <= j < |r.trace| && (r.status == Done || j < |r.trace| - 1)
          ensures Passed(plan, k, history, r.trace, succeeds, j)
        {
          if j > 0 {
            assert Passed(plan, k + 1, history + [c], rest.trace, succeeds, j - 1);
            ConsPrefix(history, c, rest.trace, j - 1);
          } else {
            assert r.trace[..1] == [c];
          }
        }
      }
    }
  }

  /** Issuing `c` and then a prefix of `t` leaves the same history as issuing
      that prefix of `[c] + t`. */
  lemma ConsPrefix(history: seq<Command>, c: Command, t: seq<Command>, j: nat)
    requires j < |t|
    ensures history + ([c] + t)[..j + 2] == (history + [c]) + t[..j + 1]
  {
    assert ([c] + t)[..j + 2] == [c] + t[..j + 1];
  }

  /** `trace` emitted first, then the run `r`. */
  function After(trace: seq<Command>, r: Run): Run {
    Run(trace + r.trace, r.status)
  }

  /** A straight-line run of `plan` has emitted `trace` for the steps before
      `k`: the whole run is `trace` followed by the run of the rest. */
  ghost predicate Midway(plan: seq<Step>, history: seq<Command>, succeeds: Oracle, trace: seq<Command>, k: nat)
    requires k <= |plan|
  {
    Execute(plan, history, succeeds) == After(trace, ExecuteFrom(plan, k, history + trace, succeeds))
  }

  /** Awaits one effect, `c`, issued as step `k` of `plan`: it is appended to
      the trace, and `ok` says whether the run goes on, which it does when `c`
      succeeds or when its failure is ignored (a call inside a try/catch with
      an empty catch block). */
  method Await(ghost plan: seq<Step>, ghost k: nat, c: Command, ignoreFailure: bool,
               history: seq<Command>, trace: seq<Command>, succeeds: Oracle)
    returns (trace': seq<Command>, ok: bool)
    requires k < |plan| && plan[k] == Step(c, ignoreFailure)
    requires Midway(plan, history, succeeds, trace, k)
    ensures trace' == trace + [c]
    ensures ignoreFailure ==> ok
    ensures ok ==> Midway(plan, history, succeeds, trace', k + 1)
    ensures !ok ==> Execute(plan, history, succeeds) == Run(trace', Failed(c))
  {
    trace' := trace + [c];
    ok := ignoreFailure || succeeds(history + trace');
    Associative(history, trace, [c]);
    if ok {
      var r' := ExecuteFrom(plan, k + 1, history + trace', succeeds);
      Associative(trace, [c], r'.trace);
    }
  }

  /** `r` ran after `history`; unless it failed, the steps `q` run after it. */
  function Then(r: Run, q: seq<Step>, history: seq<Command>, succeeds: Oracle): Run {
    if r.status.Failed? then r else After(r.trace, Execute(q, history + r.trace, succeeds))
  }

  /** The steps of `q`, placed after those of `p`, run as they do on their own. */
  lemma {:induction false} ExecuteShift(p: seq<Step>, q: seq<Step>, m: nat, history: seq<Command>, succeeds: Oracle)
    requires m <= |q|
    ensures ExecuteFrom(p + q, |p| + m, history, succeeds) == ExecuteFrom(q, m, history, succeeds)
    decreases |q| - m
  {
    if m < |q| {
      assert (p + q)[|p| + m] == q[m];
      ExecuteShift(p, q, m + 1, history + [q[m].cmd], succeeds);
    }
  }

  /** Two plans run back to back are one plan: running `p + q` runs `p` and,
      unless that failed, then `q`. */
  lemma {:induction false} ExecuteConcatFrom(p: seq<Step>, q: seq<Step>, k: nat, history: seq<Command>, succeeds: Oracle)
    requires k <= |p|
    ensures ExecuteFrom(p + q, k, history, succeeds) == Then(ExecuteFrom(p, k, history, succeeds), q, history, succeeds)
    decreases |p| - k
  {
    if k == |p| {
      ExecuteShift(p, q, 0, history, succeeds);
      assert history + [] == history;
      assert ExecuteFrom(q, 0, history, succeeds).trace == [] + ExecuteFrom(q, 0, history, succeeds).trace;
    } else {
      var c := p[k].cmd;
      assert (p + q)[k] == p[k];
      if succeeds(history + [c]) || p[k].ignoreFailure {
        var rest := ExecuteFrom(p, k + 1, history + [c], succeeds);
        ExecuteConcatFrom(p, q, k + 1, history + [c], succeeds);
        if rest.status == Done {
          var e := Execute(q, (history + [c]) + rest.trace, succeeds);
          Associative(history, [c], rest.trace);
          Associative([c], rest.trace, e.trace);
        }
      }
    }
  }

  /** The outcome of `c` does not matter when every step of the plan that
      issues `c` ignores its failure: two oracles that may disagree only about
      `c` give the same run. */
  lemma {:induction false} ExecuteIgnoresOutcome(plan: seq<Step>, k: nat, history: seq<Command>, c: Command,
                                                 succeeds: Oracle, succeeds': Oracle)
    requires k <= |plan|
    requires forall j :: k <= j < |plan| && plan[j].cmd == c ==> plan[j].ignoreFailure
    requires forall h: seq<Command> :: |h| > 0 && h[|h| - 1] != c ==> succeeds(h) == succeeds'(h)
    ensures ExecuteFrom(plan, k, history, succeeds) == ExecuteFrom(plan, k, history, succeeds')
    decreases |plan| - k
  {
    if k < |plan| {
      var h := history + [plan[k].cmd];
      assert h[|h| - 1] == plan[k].cmd;
      ExecuteIgnoresOutcome(plan, k + 1, h, c, succeeds, succeeds');
    }
  }

  lemma Associative(a: seq<Command>, b: seq<Command>, c: seq<Command>)
    ensures (a + b) + c == a + (b + c)
  {
  }
}
