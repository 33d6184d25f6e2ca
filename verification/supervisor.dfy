/** The restart supervisor around the agent's main loop: each process
    reads its attempt counter from the environment, runs the loop once,
    and on a panic either re-executes itself with the counter advanced or
    gives up once the attempt budget is spent. A re-exec is a transition to
    the next process's environment. */
module Supervisor {
  import opened Results
  import opened Numbers

  /** The process environment: variable name to value. */
  type Environment = map<string, string>

  const NO_RESTART_ENV_VAR := "ACOLYTE_NO_RESTART"
  const RESTART_ENV_VAR := "ACOLYTE_RESTART"
  const ID_ENV_VAR := "ACOLYTE_ID"
  const MAX_RUN_ATTEMPTS: nat := 5
  const RESTART_DELAY_SECS: nat := 10
  /** Exit status of a process whose `main` ends in an uncaught panic. */
  const PANIC_EXIT_CODE: nat := 101

  /** `is_no_restart`: the variable is set to something non-empty. */
  predicate IsNoRestart(env: Environment) {
    NO_RESTART_ENV_VAR in env && env[NO_RESTART_ENV_VAR] != []
  }

  /** `get_restart_count`: the variable as a `u8`; missing or unparseable
      text counts as no earlier attempt. */
  function GetRestartCount(env: Environment): (c: nat)
    ensures c < U8_LIMIT
    ensures RESTART_ENV_VAR !in env ==> c == 0
  {
    if RESTART_ENV_VAR in env then ParseU8(env[RESTART_ENV_VAR]).GetOr(0) else 0
  }

  /** A counter written to the environment as decimal text is read back. */
  lemma RestartCountRoundTrip(env: Environment, n: nat)
    requires n < U8_LIMIT
    ensures GetRestartCount(env[RESTART_ENV_VAR := NatToString(n)]) == n
  {
    ParseOfNatToString(n, U8_LIMIT);
  }

  /** Text that is not a `u8` is no earlier attempt: letters, a value past
      255, a negative number. A leading `+` is accepted. */
  lemma RestartCountExamples()
    ensures GetRestartCount(map[RESTART_ENV_VAR := "two"]) == 0
    ensures GetRestartCount(map[RESTART_ENV_VAR := "256"]) == 0
    ensures GetRestartCount(map[RESTART_ENV_VAR := "-1"]) == 0
    ensures GetRestartCount(map[RESTART_ENV_VAR := "+3"]) == 3
  {
    assert !IsDigit("two"[0]);
    assert !IsDigit("-1"[0]);
    assert "256" == NatToString(256);
    NatToStringValue(256);
    assert "+3"[1..] == "3";
    assert DigitsValue("3") == DigitsValue("3"[..0]) * 10 + 3;
  }

  /** How the agent's main loop ended: it returned, or it panicked. */
  datatype Outcome = Returned | Panicked

  /** What the process does once the loop has ended. */
  datatype Action =
    | Exit(code: nat)
    /** Replace this process with a fresh copy of the executable, given
        this environment and these arguments (the ones after the program
        name). */
    | Reexec(env: Environment, args: seq<string>)

  /** One process's life: whether it waits `RESTART_DELAY_SECS` before
      running the loop, and what it does afterwards. */
  datatype Launch = Launch(sleepsFirst: bool, action: Action)

  /** The environment the next process gets: this one, with the counter
      set to `next` and the agent's id pinned. */
  function NextEnvironment(env: Environment, next: nat, id: string): Environment {
    env[RESTART_ENV_VAR := NatToString(next)][ID_ENV_VAR := id]
  }

  /** `main` then `run_with_restart`, with the counter advanced to
      `next`. `id` is the agent id the configuration settled on;
      `execFails` says whether replacing the process failed. */
  function Decide(env: Environment, args: seq<string>, id: string, outcome: Outcome, execFails: bool, next: nat): Launch {
    if IsNoRestart(env) then
      Launch(false, Exit(if outcome == Returned then 0 else PANIC_EXIT_CODE))
    else
      var sleeps := GetRestartCount(env) > 0;
      if outcome == Returned then Launch(sleeps, Exit(0))
      else if next >= MAX_RUN_ATTEMPTS then Launch(sleeps, Exit(1))
      else if execFails then Launch(sleeps, Exit(1))
      else Launch(sleeps, Reexec(NextEnvironment(env, next, id), args))
  }

  /** The supervisor with the counter advanced as the source evidently
      intends: one more than the attempts so far. */
  function Supervise(env: Environment, args: seq<string>, id: string, outcome: Outcome, execFails: bool): (l: Launch)
    ensures IsNoRestart(env) ==> !l.sleepsFirst && l.action == Exit(if outcome == Returned then 0 else PANIC_EXIT_CODE)
    ensures !IsNoRestart(env) ==> (l.sleepsFirst <==> GetRestartCount(env) > 0)
    ensures outcome == Returned ==> l.action == Exit(0)
    ensures l.action.Reexec? <==>
              !IsNoRestart(env) && outcome == Panicked && GetRestartCount(env) + 1 < MAX_RUN_ATTEMPTS && !execFails
    ensures l.action.Exit? ==> l.action.code in {0, 1, PANIC_EXIT_CODE}
    ensures l.action.Exit? && l.action.code == 1 ==> !IsNoRestart(env) && outcome == Panicked
    // the next process: one attempt further on, same agent, same arguments
    ensures l.action.Reexec? ==>
              && GetRestartCount(l.action.env) == GetRestartCount(env) + 1
              && ID_ENV_VAR in l.action.env && l.action.env[ID_ENV_VAR] == id
              && l.action.args == args
              && !IsNoRestart(l.action.env)
              && forall k :: k in env && k != RESTART_ENV_VAR && k != ID_ENV_VAR ==> k in l.action.env && l.action.env[k] == env[k]
  {
    var next := GetRestartCount(env) + 1;
    if next < MAX_RUN_ATTEMPTS then
      RestartCountRoundTrip(env, next);
      assert GetRestartCount(NextEnvironment(env, next, id)) == GetRestartCount(env[RESTART_ENV_VAR := NatToString(next)]);
      Decide(env, args, id, outcome, execFails, next)
    else
      Decide(env, args, id, outcome, execFails, next)
  }

  /** How a run of crashing processes ends. */
  datatype Ending = Ending(runs: nat, exitCode: nat)

  /** Follow the re-execs of a loop that panics every time, each exec
      succeeding: the number of processes that run, and the exit status of
      the last. */
  function CrashLoop(env: Environment, args: seq<string>, id: string): (e: Ending)
    requires !IsNoRestart(env)
    ensures e.exitCode == 1
    ensures GetRestartCount(env) < MAX_RUN_ATTEMPTS ==> e.runs == MAX_RUN_ATTEMPTS - GetRestartCount(env)
    ensures GetRestartCount(env) >= MAX_RUN_ATTEMPTS ==> e.runs == 1
    decreases if GetRestartCount(env) < MAX_RUN_ATTEMPTS then MAX_RUN_ATTEMPTS - GetRestartCount(env) else 0
  {
    match Supervise(env, args, id, Panicked, false).action
    case Reexec(next, nextArgs) =>
      var rest := CrashLoop(next, nextArgs, id);
      Ending(1 + rest.runs, rest.exitCode)
    case Exit(code) => Ending(1, code)
  }

  /** A first start that crashes every time runs exactly
      `MAX_RUN_ATTEMPTS` times and then exits with status 1. */
  lemma CrashingAgentRunsFiveTimes(env: Environment, args: seq<string>, id: string)
    requires !IsNoRestart(env) && RESTART_ENV_VAR !in env
    ensures CrashLoop(env, args, id) == Ending(5, 1)
  {
  }

  /** The agent id survives every re-exec of a crash loop. */
  lemma {:induction false} CrashLoopKeepsId(env: Environment, args: seq<string>, id: string, k: nat)
    requires !IsNoRestart(env)
    requires k < CrashLoop(env, args, id).runs - 1
    ensures ReexecEnvironment(env, args, id, k).Some?
    ensures ID_ENV_VAR in ReexecEnvironment(env, args, id, k).value
    ensures ReexecEnvironment(env, args, id, k).value[ID_ENV_VAR] == id
    decreases k
  {
    var l := Supervise(env, args, id, Panicked, false);
    if k > 0 {
      CrashLoopKeepsId(l.action.env, l.action.args, id, k - 1);
    }
  }

  /** The environment handed to the (k+1)-th re-exec of a crash loop. */
  function ReexecEnvironment(env: Environment, args: seq<string>, id: string, k: nat): Option<Environment>
    decreases k
  {
    if IsNoRestart(env) then None
    else
      match Supervise(env, args, id, Panicked, false).action
      case Reexec(next, nextArgs) => if k == 0 then Some(next) else ReexecEnvironment(next, nextArgs, id, k - 1)
      case Exit(_) => None
  }

  // ------------------------------------------- the counter as written

  /** `restart_count + 1` on a `u8` in a build without overflow checks. */
  function NextCountAsWritten(count: nat): (next: nat)
    requires count < U8_LIMIT
    ensures next < U8_LIMIT
    ensures count + 1 < U8_LIMIT ==> next == count + 1
    ensures count + 1 == U8_LIMIT ==> next == 0
  {
    (count + 1) % U8_LIMIT
  }

  /** The supervisor as written, the counter wrapping at 256. */
  function SuperviseAsWritten(env: Environment, args: seq<string>, id: string, outcome: Outcome, execFails: bool): (l: Launch)
    ensures GetRestartCount(env) + 1 < U8_LIMIT ==> l == Supervise(env, args, id, outcome, execFails)
  {
    Decide(env, args, id, outcome, execFails, NextCountAsWritten(GetRestartCount(env)))
  }

  /** With the counter at 255 a crash does not end the loop: the wrapped
      counter 0 is under the budget, so the process re-executes with a
      fresh budget instead of exiting with status 1. */
  lemma WrappedCounterRestartsBudget(args: seq<string>, id: string)
    ensures GetRestartCount(map[RESTART_ENV_VAR := "255"]) == 255
    ensures SuperviseAsWritten(map[RESTART_ENV_VAR := "255"], args, id, Panicked, false).action
            == Reexec(map[RESTART_ENV_VAR := "0", ID_ENV_VAR := id], args)
    ensures Supervise(map[RESTART_ENV_VAR := "255"], args, id, Panicked, false).action == Exit(1)
  {
    var env := map[RESTART_ENV_VAR := "255"];
    assert "255" == NatToString(255);
    ParseOfNatToString(255, U8_LIMIT);
    assert NatToString(0) == "0";
    assert !IsNoRestart(env);
  }
}
