/**
 * `BaseTool` and `ToolRegistry`: the monitoring wrapper that turns every
 * exception of a tool into an error result and counts executions, the
 * parameter sanitiser used for logging, the default health check, and the
 * name-to-tool registry. What a tool's `execute` does is passed in as its
 * outcome; the elapsed time is passed in as a number.
 */
module BaseTool {
  import opened Wrappers
  import opened Text
  import opened Values
  import opened Errors
  import opened Schemas

  // ---------------------------------------------------------------------
  // Execution metrics

  /** `_execution_count`, `_total_execution_time` and `_last_execution_time`. */
  datatype Stats = Stats(count: nat, totalTime: real, lastTime: Option<real>)

  /** The metrics of a new tool, and after `reset_metrics`. */
  const NoStats := Stats(0, 0.0, None)

  /** `_update_metrics`: one more execution, its time added and remembered. */
  function UpdateMetrics(s: Stats, elapsed: real): (r: Stats)
    ensures r.count == s.count + 1 && r.totalTime == s.totalTime + elapsed && r.lastTime == Some(elapsed)
  {
    Stats(s.count + 1, s.totalTime + elapsed, Some(elapsed))
  }

  /** `average_execution_time` of `get_metrics`. */
  function AverageTime(s: Stats): (avg: real)
    ensures s.count == 0 ==> avg == 0.0
    ensures s.count > 0 ==> avg * (s.count as real) == s.totalTime
  {
    if s.count > 0 then s.totalTime / (s.count as real) else 0.0
  }

  // ---------------------------------------------------------------------
  // execute_with_monitoring

  /** The result of a monitored execution and the tool's metrics after it. */
  datatype Monitored = Monitored(result: ToolResult, stats: Stats)

  /** The bookkeeping entries added to an error result's details. */
  function RunDetails(elapsed: real, executionId: int, recoverable: bool): Data {
    map["execution_time" := Real(elapsed), "execution_id" := Int(executionId), "recoverable" := Bool(recoverable)]
  }

  /**
   * `execute_with_monitoring`: never raises. A returned result gets the
   * execution time; a `ToolExecutionError` becomes an error result with the
   * same type and message, its details extended by the execution time, the
   * execution id and the recoverable flag; any other exception becomes an
   * `unexpected_error` that is marked recoverable. Every path counts one
   * execution.
   */
  function ExecuteWithMonitoring(
    toolName: string, toolType: ToolType, stats: Stats, outcome: Result<ToolResult, Exception>, elapsed: real
  ): (m: Monitored)
    ensures m.stats == UpdateMetrics(stats, elapsed)
    ensures outcome.Success? ==> m.result == outcome.value.(executionTime := Some(elapsed))
    ensures outcome.Failure? ==> WellFormed(m.result) && !m.result.success && m.result.toolType == toolType
    ensures outcome.Failure? && outcome.error.ToolExecutionError? ==>
      var e := outcome.error;
      && m.result.errorType == Some(e.errorType) && m.result.errorMessage == Some(e.message)
      && m.result.errorDetails.Some?
      && m.result.errorDetails.value.Keys == e.details.Keys + {"execution_time", "execution_id", "recoverable"}
      && m.result.errorDetails.value["recoverable"] == Bool(e.recoverable)
      && m.result.errorDetails.value["execution_id"] == Int(stats.count + 1)
      && (forall k :: k in e.details && k !in {"execution_time", "execution_id", "recoverable"} ==>
            m.result.errorDetails.value[k] == e.details[k])
    ensures outcome.Failure? && outcome.error.Raised? ==>
      && m.result.errorType == Some("unexpected_error")
      && m.result.errorMessage == Some("Unexpected error in " + toolName + ": " + outcome.error.message)
      && m.result.errorDetails.Some?
      && m.result.errorDetails.value.Keys == {"exception_type", "execution_time", "execution_id", "recoverable"}
      && m.result.errorDetails.value["exception_type"] == Str(outcome.error.typeName)
      && m.result.errorDetails.value["recoverable"] == Bool(true)
  {
    var executionId := stats.count + 1;
    var stats' := UpdateMetrics(stats, elapsed);
    match outcome
    case Success(result) => Monitored(result.(executionTime := Some(elapsed)), stats')
    case Failure(ToolExecutionError(message, errorType, details, recoverable)) =>
      Monitored(ErrorResult(toolType, errorType, message,
        Some(Merge(details, RunDetails(elapsed, executionId, recoverable)))), stats')
    case Failure(Raised(typeName, message)) =>
      Monitored(ErrorResult(toolType, "unexpected_error", "Unexpected error in " + toolName + ": " + message,
        Some(map["exception_type" := Str(typeName)] + RunDetails(elapsed, executionId, true))), stats')
  }

  /** The metrics after a sequence of monitored executions with the given outcomes and times. */
  function RunAll(
    toolName: string, toolType: ToolType, stats: Stats, outcomes: seq<Result<ToolResult, Exception>>, times: seq<real>
  ): Stats
    requires |outcomes| == |times|
    decreases |outcomes|
  {
    if |outcomes| == 0 then stats
    else
      var m := ExecuteWithMonitoring(toolName, toolType, stats, outcomes[0], times[0]);
      RunAll(toolName, toolType, m.stats, outcomes[1..], times[1..])
  }

  /** The sum of the execution times. */
  function Sum(xs: seq<real>): real
    decreases |xs|
  {
    if |xs| == 0 then 0.0 else xs[0] + Sum(xs[1..])
  }

  /**
   * The execution count goes up by exactly one per monitored call, however
   * the calls end, and the total time by the sum of their times.
   */
  lemma {:induction false} CountsEveryCall(
    toolName: string, toolType: ToolType, stats: Stats, outcomes: seq<Result<ToolResult, Exception>>, times: seq<real>
  )
    requires |outcomes| == |times|
    ensures RunAll(toolName, toolType, stats, outcomes, times).count == stats.count + |outcomes|
    ensures RunAll(toolName, toolType, stats, outcomes, times).totalTime == stats.totalTime + Sum(times)
    ensures |outcomes| > 0 ==> RunAll(toolName, toolType, stats, outcomes, times).lastTime == Some(times[|times| - 1])
    decreases |outcomes|
  {
    if |outcomes| > 0 {
      var m := ExecuteWithMonitoring(toolName, toolType, stats, outcomes[0], times[0]);
      CountsEveryCall(toolName, toolType, m.stats, outcomes[1..], times[1..]);
      if |outcomes| == 1 {
        assert outcomes[1..] == [];
      }
    }
  }

  // ---------------------------------------------------------------------
  // _sanitize_params

  /** Strings are logged up to this many characters. */
  const LoggedChars := 100

  /** One sanitised parameter. */
  function SanitizeValue(v: Value): (r: Value)
    ensures v.Str? ==> r.Str? && |r.s| <= LoggedChars + 3
    ensures v.Str? && |v.s| <= LoggedChars ==> r == v
    ensures v.Str? && |v.s| > LoggedChars ==> r == Str(v.s[..LoggedChars] + "...")
    ensures v.Int? || v.Real? || v.Bool? ==> r == v
    ensures v.List? ==> r == Str("list(len=" + IntToString(|v.items|) + ")")
    ensures v.Dict? ==> r == Str("dict(len=" + IntToString(|v.entries|) + ")")
    ensures v.Null? || v.Object? ==> r == Str(TypeOf(v))
  {
    match v
    case Str(s) => if |s| > LoggedChars then Str(s[..LoggedChars] + "...") else v
    case Int(_) => v
    case Real(_) => v
    case Bool(_) => v
    case List(items) => Str("list(len=" + IntToString(|items|) + ")")
    case Dict(entries) => Str("dict(len=" + IntToString(|entries|) + ")")
    case _ => Str(TypeOf(v))
  }

  /** `_sanitize_params`: the same keys, each value sanitised. */
  function SanitizeParams(params: Data): (r: Data)
    ensures r.Keys == params.Keys
    ensures forall k :: k in params ==> r[k] == SanitizeValue(params[k])
  {
    map k | k in params :: SanitizeValue(params[k])
  }

  /** `10 ** k` */
  function Pow10(k: nat): (p: nat)
    ensures p >= 1
  {
    if k == 0 then 1 else 10 * Pow10(k - 1)
  }

  /** A number below `10 ** k` has at most `k` decimal digits. */
  lemma {:induction false} DigitsBound(n: nat, k: nat)
    requires 1 <= k && n < Pow10(k)
    ensures |NatToString(n)| <= k
    decreases k
  {
    if n >= 10 {
      assert Pow10(1) == 10;
      DigitsBound(n / 10, k - 1);
    }
  }

  /** Digits of a container's size that still fit a logged string of `type(len=n)`. */
  const SizeDigits := 90

  /**
   * The description the sanitiser writes for a value fits in a logged
   * string: a container has fewer than `10 ** 90` elements and an object's
   * type name is at most 100 characters.
   */
  predicate Describable(v: Value) {
    match v
    case List(items) => |items| < Pow10(SizeDigits)
    case Dict(entries) => |entries| < Pow10(SizeDigits)
    case Object(t) => |t| <= LoggedChars
    case _ => true
  }

  /**
   * Sanitising twice changes nothing: a truncated string is exactly 103
   * characters and truncates to itself, and every other result is a
   * string short enough to be kept.
   */
  lemma {:induction false} SanitizeIdempotent(params: Data)
    requires forall k :: k in params ==> Describable(params[k])
    ensures SanitizeParams(SanitizeParams(params)) == SanitizeParams(params)
  {
    var once := SanitizeParams(params);
    forall k | k in once ensures SanitizeValue(once[k]) == once[k] {
      var v := params[k];
      assert once[k] == SanitizeValue(v);
      match v
      case Str(s) =>
        if |s| > LoggedChars {
          var t := s[..LoggedChars] + "...";
          assert t[..LoggedChars] + "..." == t;
        }
      case List(items) =>
        DigitsBound(|items|, SizeDigits);
        assert |once[k].s| <= LoggedChars;
      case Dict(entries) =>
        DigitsBound(|entries|, SizeDigits);
        assert |once[k].s| <= LoggedChars;
      case _ =>
    }
  }

  // ---------------------------------------------------------------------
  // health_check

  /** What the wrapped service offers for a health check. */
  datatype ServiceProbe =
    | WithHealthCheck(answer: Result<bool, Exception>)
    | WithPing(answer: Result<bool, Exception>)
    | Bare(isNone: bool)

  /**
   * The default `health_check`: the service's own `health_check`, else its
   * `ping`, else whether the service exists; an exception counts as
   * unhealthy.
   */
  function HealthCheck(service: ServiceProbe): (ok: bool)
    ensures service.Bare? ==> (ok <==> !service.isNone)
    ensures !service.Bare? ==> (ok <==> service.answer == Success(true))
  {
    match service
    case WithHealthCheck(answer) => answer == Success(true)
    case WithPing(answer) => answer == Success(true)
    case Bare(isNone) => !isNone
  }

  // ---------------------------------------------------------------------
  // ToolRegistry

  /** A registered tool, as the registry sees it. */
  datatype ToolEntry = ToolEntry(toolName: string, toolType: ToolType, stats: Stats)

  type Registry = map<string, ToolEntry>

  /** `register_tool`: the name now denotes the tool, replacing any earlier one. */
  function Register(registry: Registry, name: string, tool: ToolEntry): (r: Registry)
    ensures r.Keys == registry.Keys + {name} && r[name] == tool
    ensures forall n :: n in registry && n != name ==> r[n] == registry[n]
  {
    registry[name := tool]
  }

  /** `get_tool`: none for an unknown name. */
  function GetTool(registry: Registry, name: string): (t: Option<ToolEntry>)
    ensures t.Some? <==> name in registry
    ensures t.Some? ==> t.value == registry[name]
  {
    if name in registry then Some(registry[name]) else None
  }

  /** `get_tools_by_type`: exactly the registered tools of that type, under their names. */
  function ToolsByType(registry: Registry, toolType: ToolType): (r: Registry)
    ensures forall n :: n in r <==> n in registry && registry[n].toolType == toolType
    ensures forall n :: n in r ==> r[n] == registry[n]
  {
    map n | n in registry && registry[n].toolType == toolType :: registry[n]
  }

  /** `list_tools`: every registered name with its tool type's value. */
  function ListTools(registry: Registry): (r: map<string, string>)
    ensures r.Keys == registry.Keys
    ensures forall n :: n in r ==> r[n] == registry[n].toolType.Value()
  {
    map n | n in registry :: registry[n].toolType.Value()
  }

  /**
   * The three type views partition the registry: every tool appears in the
   * view of its own type and in no other.
   */
  lemma TypeViewsPartition(registry: Registry)
    ensures ToolsByType(registry, DocumentTool).Keys + ToolsByType(registry, ComplaintTool).Keys
            + ToolsByType(registry, LlmTool).Keys == registry.Keys
    ensures ToolsByType(registry, DocumentTool).Keys !! ToolsByType(registry, ComplaintTool).Keys
    ensures ToolsByType(registry, DocumentTool).Keys !! ToolsByType(registry, LlmTool).Keys
    ensures ToolsByType(registry, ComplaintTool).Keys !! ToolsByType(registry, LlmTool).Keys
  {
  }

  /** After registering a tool, looking its name up finds it and the other names are unaffected. */
  lemma RegisterThenGet(registry: Registry, name: string, tool: ToolEntry, other: string)
    ensures GetTool(Register(registry, name, tool), name) == Some(tool)
    ensures other != name ==> GetTool(Register(registry, name, tool), other) == GetTool(registry, other)
  {
  }
}
