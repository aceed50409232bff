# Theme Songs plugin for Jellyfin — a Dafny model of its core

The plugin walks the TV series of a Jellyfin library. For each series that has
no theme song yet, it fetches `http://tvthemes.plexapp.com/<TVDB id>.mp3` into
`theme.mp3` in the series directory and reports progress as it goes. A
scheduled task runs this pass when automatic download is enabled. A
configuration record holds the settings, with defaults, a validation method
and a reset. The plugin object repairs a bad interval or base URL whenever the
host stores a new configuration.

The model has five modules, one per source file plus one for the host
primitives they use:

- `Framework`: the .NET and Jellyfin primitives. Nullable strings are
  `Option<string>`. C#'s `int` is `int32`. It also holds `string.IsNullOrEmpty`,
  `string.IsNullOrWhiteSpace` (the full `char.IsWhiteSpace` set),
  `Path.Combine` and `Path.GetFileName` on a Unix host, and
  `TimeSpan.FromHours` in 100-ns ticks, which throws when the span does not fit
  in 64 bits. Finally, it has the task-trigger record.
- `Configuration` (`PluginConfiguration.cs`): a class with the seven fields,
  its constructor and `ResetToDefaults` as methods, and `Validate` as a
  read-only function. `Validate` is characterised by four rules and the order
  in which they are checked.
- `ThemeSongsPlugin` (`Plugin.cs`): `ValidateConfiguration` and
  `UpdateConfiguration` as methods that change the configuration object in
  place. `Normalised` is their specification.
- `Manager` (`ThemeSongsManager.cs`): `DownloadThemeSongAsync` is a function
  from a series and the HTTP answer to an outcome. `ExecuteAsync` is a method
  with the source's loop, proved equal to the recursive specification `Run`,
  and lemmas about `Run` state what the loop promises. `Dispose` and
  `Dispose(bool)` are methods on the `disposed` field.
- `Tasks` (`ThemeSongsTasks.cs`): the enable gate, the exception policy, the
  obsolete `Execute` and the two default triggers, all as functions.

The environment is made of inputs:

- The library snapshot is a `seq<Series>`. Each `Series` records whether
  `GetThemeSongs()` is non-empty, its TVDB id and its path; the id and the path
  may be null.
- The cancellation token is a function giving what
  `ThrowIfCancellationRequested` sees before the k-th series.
- The HTTP client is a function giving the answer to the request made for the
  k-th series. The answer is a response (status and how the body copy ended), a
  cancellation, a time-out or a failure.
- The progress sink gets one `Progress(processed, total)` pair per report. This
  pair stands for the double `processed / total * 100`, and `Percent` gives
  its exact value.

The model follows the code where one might expect something else:

- The run is strictly sequential. `MaxConcurrentDownloads`,
  `SkipExistingFiles`, `ThemeSongFileName`, `ThemeSongBaseUrl` and
  `EnableNotifications` are never read by the manager. `DownloadThemeSong`
  takes no configuration at all.
- An empty library reports nothing. It is not reported as 100%.
- A file created by `File.Create` stays on disk when the copy afterwards fails
  or is cancelled. `Download.fileCreated` records this; no clean-up is claimed.
- The HTTP client's two-minute time-out surfaces as `TaskCanceledException`.
  That is an `OperationCanceledException`, so it is rethrown and ends the whole
  run as cancelled (`TimeoutEndsRun`).
- `Path.Combine` runs outside the `try`. A series with a TVDB id but a null
  path throws `ArgumentNullException` out of the run (`PathMissing`, run
  outcome `Faulted`). The task then rethrows it.
- Normalisation tests the base URL with `IsNullOrEmpty`, while `Validate` uses
  `IsNullOrWhiteSpace`. A blank URL therefore survives normalisation and fails
  validation (`NormalisedNeedNotBeAcceptable`).
- No upper bound is placed on the interval. An interval above 256,204,778
  hours passes validation and normalisation, yet makes `GetDefaultTriggers`
  throw (`LargeIntervalPassesValidationButOverflows`).

## Model

| member | source | states |
|---|---|---|
| `Framework.PathCombine` | Jellyfin.Plugin.ThemeSongs/ThemeSongsManager.cs:80 | `Path.Combine` throws exactly when the directory is null |
| `Framework.CombineKeepsFileNameInDirectory` | Jellyfin.Plugin.ThemeSongs/ThemeSongsManager.cs:80 | joining a plain file name to a non-empty directory gives a path that starts with the directory, has one separator between them, and whose file name is the given name |
| `Framework.NullOrEmptyIsNullOrWhiteSpace` | Jellyfin.Plugin.ThemeSongs/Plugin.cs:103 | every null-or-empty string is null-or-white-space; `" "` is the second and not the first |
| `Framework.FromHours` | Jellyfin.Plugin.ThemeSongs/ScheduledTasks/ThemeSongsTasks.cs:78 | `TimeSpan.FromHours` succeeds exactly when hours × 36,000,000,000 fits a 64-bit tick count, and then yields that product |
| `Framework.HoursRoundTrip` | Jellyfin.Plugin.ThemeSongs/ScheduledTasks/ThemeSongsTasks.cs:78 | the tick count converts back to the same number of hours |
| `Configuration.PluginConfiguration.constructor` | Jellyfin.Plugin.ThemeSongs/Configuration/PluginConfiguration.cs:18-27 | a new configuration holds the seven defaults: enabled, 24 h, 3 downloads, `theme.mp3`, `http://tvthemes.plexapp.com`, skip existing, notifications on |
| `Configuration.PluginConfiguration.Validate` | Jellyfin.Plugin.ThemeSongs/Configuration/PluginConfiguration.cs:68-89 | returns normally exactly when no rule is broken; otherwise reports a broken rule, and no rule checked before it is broken (interval, concurrency, file name, base URL); only reads the fields |
| `Configuration.PluginConfiguration.ResetToDefaults` | Jellyfin.Plugin.ThemeSongs/Configuration/PluginConfiguration.cs:94-103 | afterwards every field equals its constructor value, whatever the prior state; so a second call changes nothing |
| `Configuration.DefaultsAreAcceptable` | Jellyfin.Plugin.ThemeSongs/Configuration/PluginConfiguration.cs:68-89 | the default settings break none of the four rules |
| `Configuration.DefaultsPassValidation` | Jellyfin.Plugin.ThemeSongs/Configuration/PluginConfiguration.cs:18-89 | a configuration holding the defaults passes `Validate` |
| `ThemeSongsPlugin.Normalised` | Jellyfin.Plugin.ThemeSongs/Plugin.cs:95-108 | the interval is 24 if it was ≤ 0 and unchanged otherwise; the base URL is the default if null or empty and unchanged otherwise, even when blank; the five other fields are untouched; afterwards the interval is positive and the URL non-empty |
| `ThemeSongsPlugin.NormalisedFixesExactlyTheAbnormal` | Jellyfin.Plugin.ThemeSongs/Plugin.cs:95-108 | normalisation is the identity exactly on settings that already have a positive interval and a non-empty URL |
| `ThemeSongsPlugin.NormalisedIdempotent` | Jellyfin.Plugin.ThemeSongs/Plugin.cs:95-108 | normalising twice equals normalising once |
| `ThemeSongsPlugin.NormalisedNeedNotBeAcceptable` | Jellyfin.Plugin.ThemeSongs/Plugin.cs:103-107 | a blank base URL and a zero concurrency both survive normalisation and break a validation rule |
| `ThemeSongsPlugin.Plugin.constructor` | Jellyfin.Plugin.ThemeSongs/Plugin.cs:32-42 | the plugin starts with the configuration the host loaded |
| `ThemeSongsPlugin.Plugin.ValidateConfiguration` | Jellyfin.Plugin.ThemeSongs/Plugin.cs:95-108 | the passed configuration object is changed in place to its normalised settings |
| `ThemeSongsPlugin.Plugin.UpdateConfiguration` | Jellyfin.Plugin.ThemeSongs/Plugin.cs:83-93 | a configuration of the plugin's own type is normalised in place and becomes the stored one; any other leaves the plugin unchanged |
| `Manager.TvdbIdOfUrl` | Jellyfin.Plugin.ThemeSongs/ThemeSongsManager.cs:81 | an id recovered from an address rebuilds that exact address |
| `Manager.UrlRoundTrip` | Jellyfin.Plugin.ThemeSongs/ThemeSongsManager.cs:81 | the id is recovered from the address built from it |
| `Manager.UrlInjective` | Jellyfin.Plugin.ThemeSongs/ThemeSongsManager.cs:81 | different ids give different addresses |
| `Manager.DestinationIsThemeFileInSeriesDirectory` | Jellyfin.Plugin.ThemeSongs/ThemeSongsManager.cs:80 | the destination lies in the series directory and is named `theme.mp3` |
| `Manager.DownloadThemeSongOutcomes` | Jellyfin.Plugin.ThemeSongs/ThemeSongsManager.cs:71-111 | an empty or null id skips with no request; a null path throws past the `try`; otherwise one request is made, to `http://tvthemes.plexapp.com/<id>.mp3` with destination `Path.Combine(path, "theme.mp3")`. Cancellation or time-out is rethrown; a non-success status returns with that status and no file; success writes the file; other failures are swallowed; a file exists afterwards exactly when the status was a success and `File.Create` was reached |
| `Manager.RunFrom` | Jellyfin.Plugin.ThemeSongs/ThemeSongsManager.cs:57-68 | a run from position k makes at most one report per remaining series |
| `Manager.RunFromReports` | Jellyfin.Plugin.ThemeSongs/ThemeSongsManager.cs:53-68 | the j-th report is (k+j+1)/total; the run completes exactly when every series has been reported |
| `Manager.RunFromAttemptsValid` | Jellyfin.Plugin.ThemeSongs/ThemeSongsManager.cs:61-64 | downloads are attempted only for series without theme songs, in order, at most once each, each with the answer for its own position |
| `Manager.RunFromAttemptsCover` | Jellyfin.Plugin.ThemeSongs/ThemeSongsManager.cs:61-67 | every reported series without theme songs had a download attempted |
| `Manager.RunFromEscapeIsLast` | Jellyfin.Plugin.ThemeSongs/ThemeSongsManager.cs:61-67 | the only attempt after the last report is one that left by an exception; it is the last attempt, and the run ends faulted for a missing path and cancelled otherwise; swallowed failures were reported and the loop went on |
| `Manager.RunFromEndsAtFirstStop` | Jellyfin.Plugin.ThemeSongs/ThemeSongsManager.cs:57-68 | the run ends at the first series where the token is cancelled or the download throws; it has reported exactly the series before it, ends as that stop dictates, and has touched no later series |
| `Manager.EmptyLibraryRun` | Jellyfin.Plugin.ThemeSongs/ThemeSongsManager.cs:54-67 | an empty snapshot gives no report, no download and normal completion, with no division |
| `Manager.CompletedRun` | Jellyfin.Plugin.ThemeSongs/ThemeSongsManager.cs:53-68 | a completed run reported once per series, the last at 100% |
| `Manager.CompletedRunFetchesUnthemed` | Jellyfin.Plugin.ThemeSongs/ThemeSongsManager.cs:57-68 | a completed run attempted downloads for exactly the series without theme songs |
| `Manager.FullProgress` | Jellyfin.Plugin.ThemeSongs/ThemeSongsManager.cs:66-67 | the report after the last series is 100% |
| `Manager.ProgressNonDecreasing` | Jellyfin.Plugin.ThemeSongs/ThemeSongsManager.cs:66-67 | the reported percentages never decrease |
| `Manager.CancellationBeforeSeries` | Jellyfin.Plugin.ThemeSongs/ThemeSongsManager.cs:59 | a cancellation seen before the j-th series, with nothing stopping earlier, leaves exactly j reports, no download from j on, and a cancelled run |
| `Manager.TimeoutEndsRun` | Jellyfin.Plugin.ThemeSongs/ThemeSongsManager.cs:85-106 | a download that times out ends the run as cancelled, after exactly the reports of the series before it |
| `Manager.ThemeSongsManager.constructor` | Jellyfin.Plugin.ThemeSongs/ThemeSongsManager.cs:25-33 | a new manager is not disposed |
| `Manager.ThemeSongsManager.ExecuteAsync` | Jellyfin.Plugin.ThemeSongs/ThemeSongsManager.cs:51-69 | the loop, with its early exits on cancellation and on exceptions, produces exactly the trace `Run` specifies (whose reports, attempts and end are described by the `RunFrom…` lemmas) |
| `Manager.ThemeSongsManager.GetDefaultTriggers` | Jellyfin.Plugin.ThemeSongs/ThemeSongsManager.cs:113-123 | one trigger, daily at 144,000,000,000 ticks (04:00) |
| `Manager.ThemeSongsManager.Dispose` | Jellyfin.Plugin.ThemeSongs/ThemeSongsManager.cs:125-129 | afterwards the manager is disposed; a second call changes nothing |
| `Manager.ThemeSongsManager.DisposeCore` | Jellyfin.Plugin.ThemeSongs/ThemeSongsManager.cs:131-142 | sets `disposed`; returns at once without change when already disposed |
| `Tasks.ExecuteAsync` | Jellyfin.Plugin.ThemeSongs/ScheduledTasks/ThemeSongsTasks.cs:44-72 | with no configuration or auto-download off, the manager is not run and the task completes; otherwise the manager runs exactly once, with the same sink and token, and the task ends as that run ends |
| `Tasks.Execute` | Jellyfin.Plugin.ThemeSongs/ScheduledTasks/ThemeSongsTasks.cs:96-99 | equals `ExecuteAsync` with the token and progress arguments swapped |
| `Tasks.ExceptionsPropagate` | Jellyfin.Plugin.ThemeSongs/ScheduledTasks/ThemeSongsTasks.cs:62-71 | the task is cancelled exactly when the manager's run was, and faulted exactly when it faulted; nothing is swallowed |
| `Tasks.EnabledCompletedTaskReportsEverySeries` | Jellyfin.Plugin.ThemeSongs/ScheduledTasks/ThemeSongsTasks.cs:58 | an enabled task that completes sent one report per series to the caller's sink, the last at 100% |
| `Tasks.GetDefaultTriggers` | Jellyfin.Plugin.ThemeSongs/ScheduledTasks/ThemeSongsTasks.cs:75-92 | exactly two triggers in order: an interval of the configured hours (24 without a configuration) × 36,000,000,000 ticks, then daily at 144,000,000,000 ticks; it throws exactly when the interval does not fit a `TimeSpan` |
| `Tasks.MissingConfigurationMeansDailyInterval` | Jellyfin.Plugin.ThemeSongs/ScheduledTasks/ThemeSongsTasks.cs:77-78 | without a configuration the interval is 24 hours |
| `Tasks.DailyTriggerIsManagersTrigger` | Jellyfin.Plugin.ThemeSongs/ScheduledTasks/ThemeSongsTasks.cs:87-91 | the task's second trigger is the manager's one default trigger |
| `Tasks.NormalisedIntervalTrigger` | Jellyfin.Plugin.ThemeSongs/ScheduledTasks/ThemeSongsTasks.cs:78-83 | a normalised interval that fits gives a positive interval of the configured whole hours |
| `Tasks.LargeIntervalPassesValidationButOverflows` | Jellyfin.Plugin.ThemeSongs/ScheduledTasks/ThemeSongsTasks.cs:78 | the largest `int` interval passes validation and normalisation, yet makes the triggers throw |

## Left out

- The HTTP GET itself, the stream copy, `File.Create`, the client factory and the two-minute timeout value are not modelled. They are replaced by the answer function, which can say the request timed out.
- Logging is not modelled. It has no effect on the outcomes.
- The library queries (`GetSeriesFromLibrary`, `GetThemeSongs`, `GetProviderId`, `Path`) call into Jellyfin and are not modelled. Their results are the `Series` records given as input.
- Exceptions thrown by the library query or by the progress sink are not modelled. The run model ends only by completion, cancellation or the null-path exception.
- Floating point is not modelled. Progress is the exact pair (processed, total).
- The text of the `ArgumentException` messages is not modelled. `Validate` reports which rule failed.
- The `Name`, `Key`, `Description` and `Category` strings of the manager and the task are display constants only.
- The constructors' null-argument checks take Jellyfin services, which are not modelled.
- `GC.SuppressFinalize` has no effect in the model.
- `base.UpdateConfiguration`'s XML save and change event are not modelled. Only the storing of the object is.
- `GetPluginInfo`, `GetPages`, the plugin id and the `Instance` singleton are host wiring and are not modelled. The task receives the current configuration, or `None`, as a parameter.
- The API controller (`Api/ThemeSongsController.cs`) is not part of this model. It reads run-status members that the manager does not have.
- Concurrency, single-flight runs and bounded parallel downloads do not exist in the code.
- Framework.PathCombine: uses Unix path rules only ('/' as the only separator). Windows volume and backslash rules are not modelled.
