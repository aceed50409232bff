/**
  The scheduled task (`DownloadThemeSongsTask`): runs the manager only when the
  current configuration enables automatic download, lets every exception of the
  run through, and offers two default triggers computed from the configuration.
 */
module Tasks {
  import opened Framework
  import opened Configuration
  import opened Manager
  import ThemeSongsPlugin

  /** The manager's run, made with the progress sink `progress`. */
  datatype ManagerRun<P> = ManagerRun(progress: P, trace: RunTrace)

  /** What `ExecuteAsync` did: the manager runs it started and how its task ended. */
  datatype TaskRun<P> = TaskRun(managerRuns: seq<ManagerRun<P>>, outcome: RunOutcome)

  /** `config?.EnableAutoDownload == true`; `None` stands for a missing plugin
      instance or configuration. */
  predicate AutoDownloadEnabled(config: Option<Settings>) {
    config.Some? && config.value.enableAutoDownload
  }

  /** The two `catch` clauses: `OperationCanceledException` is logged and rethrown,
      any other exception is logged and rethrown. */
  function Rethrown(o: RunOutcome): RunOutcome {
    match o
    case Canceled => Canceled
    case Faulted => Faulted
    case RanToCompletion => RanToCompletion
  }

  /** `ExecuteAsync(progress, cancellationToken)` with the current configuration
      `config`, the library snapshot and the HTTP answers the manager meets. */
  function ExecuteAsync<P>(config: Option<Settings>, library: seq<Series>, http: nat -> Request -> HttpResult,
                           progress: P, token: CancellationToken): (r: TaskRun<P>)
    ensures r.managerRuns == [] <==> !AutoDownloadEnabled(config)
    ensures !AutoDownloadEnabled(config) ==> r.outcome == RanToCompletion
    ensures AutoDownloadEnabled(config) ==>
      && r.managerRuns == [ManagerRun(progress, Run(library, token, http))]
      && r.outcome == Run(library, token, http).outcome
  {
    if !AutoDownloadEnabled(config) then TaskRun([], RanToCompletion)
    else
      var trace := Run(library, token, http);
      TaskRun([ManagerRun(progress, trace)], Rethrown(trace.outcome))
  }

  /** The obsolete `Execute(cancellationToken, progress)`: `ExecuteAsync` with the
      arguments in the other order, and nothing else. */
  function Execute<P>(config: Option<Settings>, library: seq<Series>, http: nat -> Request -> HttpResult,
                      token: CancellationToken, progress: P): (r: TaskRun<P>)
    ensures r == ExecuteAsync(config, library, http, progress, token)
  {
    ExecuteAsync(config, library, http, progress, token)
  }

  /** The task ends cancelled exactly when it ran the manager and that run was
      cancelled, and faulted exactly when that run faulted: nothing is swallowed. */
  lemma ExceptionsPropagate<P>(config: Option<Settings>, library: seq<Series>, http: nat -> Request -> HttpResult,
                               progress: P, token: CancellationToken)
    ensures var r := ExecuteAsync(config, library, http, progress, token);
      && (r.outcome == Canceled <==> AutoDownloadEnabled(config) && Run(library, token, http).outcome == Canceled)
      && (r.outcome == Faulted <==> AutoDownloadEnabled(config) && Run(library, token, http).outcome == Faulted)
  {
  }

  /** An enabled task that completes has passed one report per series to the sink,
      the last at 100%. */
  lemma EnabledCompletedTaskReportsEverySeries<P>(config: Option<Settings>, library: seq<Series>,
                                                  http: nat -> Request -> HttpResult, progress: P, token: CancellationToken)
    requires AutoDownloadEnabled(config)
    requires ExecuteAsync(config, library, http, progress, token).outcome == RanToCompletion
    ensures var run := ExecuteAsync(config, library, http, progress, token).managerRuns[0];
      && run.progress == progress
      && |run.trace.reports| == |library|
      && (|library| > 0 ==> var last := run.trace.reports[|library| - 1]; last.total > 0 && Percent(last) == 100.0)
  {
    CompletedRun(library, token, http);
  }

  // ---------------------------------------------------------------------------
  // Default triggers

  /** `config?.ScanIntervalHours ?? 24`. */
  function ConfiguredHours(config: Option<Settings>): int32 {
    if config.Some? then config.value.scanIntervalHours else 24
  }

  /** `GetDefaultTriggers`, `None` when `TimeSpan.FromHours` throws for the
      configured interval (the iterator throws before yielding anything). */
  function GetDefaultTriggers(config: Option<Settings>): (r: Option<seq<TaskTriggerInfo>>)
    ensures r.Some? <==> -MaxHours <= ConfiguredHours(config) <= MaxHours
    ensures r.Some? ==>
      && |r.value| == 2
      && r.value[0] == TaskTriggerInfo(IntervalTrigger, Some(ConfiguredHours(config) * TicksPerHour), None)
      && r.value[1] == TaskTriggerInfo(DailyTrigger, None, Some(144_000_000_000))
  {
    match FromHours(ConfiguredHours(config))
    case None => None
    case Some(intervalTicks) =>
      Some([TaskTriggerInfo(IntervalTrigger, Some(intervalTicks), None),
            TaskTriggerInfo(DailyTrigger, None, FromHours(4))])
  }

  /** Without a configuration the interval is one day. */
  lemma MissingConfigurationMeansDailyInterval()
    ensures GetDefaultTriggers(None).Some?
    ensures GetDefaultTriggers(None).value[0].intervalTicks == Some(24 * TicksPerHour)
  {
  }

  /** The daily trigger is the manager's own default trigger. */
  lemma DailyTriggerIsManagersTrigger(config: Option<Settings>)
    requires GetDefaultTriggers(config).Some?
    ensures GetDefaultTriggers(config).value[1..] == ThemeSongsManager.GetDefaultTriggers()
  {
  }

  /** For a normalised configuration the interval trigger is a positive whole
      number of the configured hours, as long as the span fits a `TimeSpan`. */
  lemma NormalisedIntervalTrigger(s: Settings)
    requires ThemeSongsPlugin.IsNormal(s) && s.scanIntervalHours <= MaxHours
    ensures var r := GetDefaultTriggers(Some(s));
      && r.Some?
      && r.value[0].intervalTicks.Some?
      && r.value[0].intervalTicks.value > 0
      && TotalHours(r.value[0].intervalTicks.value) == s.scanIntervalHours
  {
    HoursRoundTrip(s.scanIntervalHours);
  }

  /** Neither `Validate` nor normalisation bounds the interval from above: the
      largest `int` interval passes both and makes `GetDefaultTriggers` throw. */
  lemma LargeIntervalPassesValidationButOverflows()
    ensures var s := Defaults().(scanIntervalHours := 0x7FFF_FFFF);
      && Acceptable(s)
      && ThemeSongsPlugin.Normalised(s) == s
      && GetDefaultTriggers(Some(s)).None?
  {
    DefaultsAreAcceptable();
    var s := Defaults().(scanIntervalHours := 0x7FFF_FFFF);
    assert forall rule :: Violates(s, rule) == Violates(Defaults(), rule);
  }
}
