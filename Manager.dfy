/**
  The download engine (`ThemeSongsManager`): one sequential pass over a snapshot of
  the library's series that fetches a theme song for every series without one,
  checks for cancellation before each series and reports progress after each.

  The library, the HTTP exchange and the cancellation token are inputs:
  - a series is the record `Series` (what `GetThemeSongs`, `GetProviderId` and
    `Path` return for it);
  - `http(k)` answers the one request made while the k-th series is handled;
  - `token(k)` is what `ThrowIfCancellationRequested` sees before the k-th series.
  Progress is the pair (processed, total) that the source turns into
  `processed / total * 100`.
 */
module Manager {
  import opened Framework

  const ThemeSongHost: string := "http://tvthemes.plexapp.com/"
  const ThemeSongExtension: string := ".mp3"
  const ThemeSongFile: string := "theme.mp3"

  /** One series: whether it already has theme songs, its TVDB id and its directory
      (either may be `null`). */
  datatype Series = Series(hasThemeSongs: bool, tvdbId: Option<string>, path: Option<string>)

  /** A GET of `url` whose body is to be written to `destination`. */
  datatype Request = Request(url: string, destination: string)

  /** How reading the body and writing the file ended after a response arrived. */
  datatype BodyResult =
    | Written              // stream copied into the new file
    | FailedBeforeFile     // reading the stream or File.Create threw
    | CancelledBeforeFile  // reading the stream was cancelled
    | FailedAfterFile      // the copy into the created file threw
    | CancelledAfterFile   // the copy into the created file was cancelled

  /** How `GetAsync` ended. A time-out of the two-minute client limit surfaces as
      `TaskCanceledException`, an `OperationCanceledException`. */
  datatype HttpResult =
    | Responded(status: int, body: BodyResult)
    | RequestCancelled
    | RequestTimedOut
    | RequestFailed

  /** How `DownloadThemeSongAsync` ends for one series. */
  datatype Outcome =
    | SkippedNoTvdbId       // empty or null id: warning, normal return
    | NonSuccessStatus(status: int)  // warning, normal return
    | Downloaded            // normal return
    | FailureLogged         // any other exception, logged and swallowed
    | CancellationRethrown  // OperationCanceledException, rethrown
    | PathMissing           // Path.Combine threw ArgumentNullException, not caught

  /** One call of `DownloadThemeSongAsync`: the request it made, if any, and whether
      it created the destination file (which is left in place even when the copy
      fails or is cancelled afterwards). */
  datatype Download = Download(request: Option<Request>, fileCreated: bool, outcome: Outcome)

  /** Outcomes that leave `DownloadThemeSongAsync` by an exception. */
  predicate Escapes(o: Outcome) {
    o == CancellationRethrown || o == PathMissing
  }

  /** `HttpResponseMessage.IsSuccessStatusCode`. */
  predicate IsSuccessStatusCode(status: int) {
    200 <= status <= 299
  }

  /** The fixed theme-song address of a TVDB id; no configuration setting is read. */
  function ThemeSongUrl(tvdbId: string): string {
    ThemeSongHost + tvdbId + ThemeSongExtension
  }

  /** The TVDB id a theme-song address was built from, if it is one. */
  function TvdbIdOfUrl(url: string): (r: Option<string>)
    ensures r.Some? ==> ThemeSongUrl(r.value) == url
  {
    var lo, hi := |ThemeSongHost|, |url| - |ThemeSongExtension|;
    if lo <= hi && url[..lo] == ThemeSongHost && url[hi..] == ThemeSongExtension then
      assert url == url[..lo] + url[lo..hi] + url[hi..];
      Some(url[lo..hi])
    else None
  }

  /** The address determines the id it was built from. */
  lemma UrlRoundTrip(tvdbId: string)
    ensures TvdbIdOfUrl(ThemeSongUrl(tvdbId)) == Some(tvdbId)
  {
    var url := ThemeSongUrl(tvdbId);
    var lo, hi := |ThemeSongHost|, |url| - |ThemeSongExtension|;
    assert url[..lo] == ThemeSongHost;
    assert url[lo..hi] == tvdbId;
    assert url[hi..] == ThemeSongExtension;
  }

  /** Different ids give different addresses. */
  lemma UrlInjective(a: string, b: string)
    ensures ThemeSongUrl(a) == ThemeSongUrl(b) ==> a == b
  {
    UrlRoundTrip(a);
    UrlRoundTrip(b);
  }

  /** The file is always `theme.mp3` inside the series directory. */
  lemma DestinationIsThemeFileInSeriesDirectory(dir: string)
    requires dir != ""
    ensures PathCombine(Some(dir), ThemeSongFile).Some?
    ensures var p := PathCombine(Some(dir), ThemeSongFile).value;
      FileName(p) == ThemeSongFile && p[..|dir|] == dir
  {
    assert '/' !in ThemeSongFile;
    CombineKeepsFileNameInDirectory(dir, ThemeSongFile);
  }

  /** `DownloadThemeSongAsync` for one series, given the answer `http` gives. */
  function DownloadThemeSong(serie: Series, http: Request -> HttpResult): Download
  {
    if IsNullOrEmpty(serie.tvdbId) then Download(None, false, SkippedNoTvdbId)
    else match PathCombine(serie.path, ThemeSongFile)
      case None => Download(None, false, PathMissing)
      case Some(destination) =>
        var request := Request(ThemeSongUrl(serie.tvdbId.value), destination);
        match http(request)
        case RequestCancelled => Download(Some(request), false, CancellationRethrown)
        case RequestTimedOut => Download(Some(request), false, CancellationRethrown)
        case RequestFailed => Download(Some(request), false, FailureLogged)
        case Responded(status, body) =>
          if !IsSuccessStatusCode(status) then Download(Some(request), false, NonSuccessStatus(status))
          else match body
            case Written => Download(Some(request), true, Downloaded)
            case FailedBeforeFile => Download(Some(request), false, FailureLogged)
            case CancelledBeforeFile => Download(Some(request), false, CancellationRethrown)
            case FailedAfterFile => Download(Some(request), true, FailureLogged)
            case CancelledAfterFile => Download(Some(request), true, CancellationRethrown)
  }

  /** The answers that make `DownloadThemeSongAsync` rethrow an `OperationCanceledException`. */
  predicate CancelsDownload(h: HttpResult) {
    || h == RequestCancelled
    || h == RequestTimedOut
    || (h.Responded? && IsSuccessStatusCode(h.status)
        && (h.body == CancelledBeforeFile || h.body == CancelledAfterFile))
  }

  /** What one call of `DownloadThemeSongAsync` does: an empty or null id skips
      without a request; a null path throws before any request; otherwise exactly
      one request, to the fixed address, for `theme.mp3` in the series directory,
      whose answer decides the outcome and whether a file was created. */
  lemma DownloadThemeSongOutcomes(serie: Series, http: Request -> HttpResult)
    ensures var d := DownloadThemeSong(serie, http);
      && (d.outcome == SkippedNoTvdbId <==> IsNullOrEmpty(serie.tvdbId))
      && (d.outcome == PathMissing <==> !IsNullOrEmpty(serie.tvdbId) && serie.path.None?)
      && (d.request.Some? <==> !IsNullOrEmpty(serie.tvdbId) && serie.path.Some?)
      && (d.request.Some? ==>
        && d.request.value.url == ThemeSongUrl(serie.tvdbId.value)
        && PathCombine(serie.path, ThemeSongFile) == Some(d.request.value.destination))
      && (d.request.Some? ==> var h := http(d.request.value);
        && (d.outcome == CancellationRethrown <==> CancelsDownload(h))
        && (d.outcome.NonSuccessStatus? <==> h.Responded? && !IsSuccessStatusCode(h.status))
        && (d.outcome.NonSuccessStatus? ==> d.outcome.status == h.status)
        && (d.outcome == Downloaded <==> h.Responded? && IsSuccessStatusCode(h.status) && h.body == Written)
        && (d.fileCreated <==> h.Responded? && IsSuccessStatusCode(h.status)
                               && h.body in {Written, FailedAfterFile, CancelledAfterFile}))
      && (d.request.None? ==> !d.fileCreated)
  {
  }

  // ---------------------------------------------------------------------------
  // One run of ExecuteAsync

  /** One `progress.Report` call: the percentage `processed / total * 100`, kept exact. */
  datatype Progress = Progress(processed: nat, total: nat)

  function Percent(p: Progress): real
    requires p.total > 0
  {
    (p.processed as real) / (p.total as real) * 100.0
  }

  /** The call of `DownloadThemeSongAsync` made for the series at `index`. */
  datatype Attempt = Attempt(index: nat, download: Download)

  /** How the run's task ends: normally, by `OperationCanceledException`, or by
      another exception. */
  datatype RunOutcome = RanToCompletion | Canceled | Faulted

  /** What a run did: its progress reports in order, its download calls in order,
      and how it ended. */
  datatype RunTrace = RunTrace(reports: seq<Progress>, attempts: seq<Attempt>, outcome: RunOutcome)

  /** `done` followed by `rest`. */
  function Then(reports: seq<Progress>, attempts: seq<Attempt>, rest: RunTrace): RunTrace {
    RunTrace(reports + rest.reports, attempts + rest.attempts, rest.outcome)
  }

  lemma ThenThen(r0: seq<Progress>, a0: seq<Attempt>, r1: seq<Progress>, a1: seq<Attempt>, rest: RunTrace)
    ensures Then(r0, a0, Then(r1, a1, rest)) == Then(r0 + r1, a0 + a1, rest)
  {
    assert r0 + (r1 + rest.reports) == (r0 + r1) + rest.reports;
    assert a0 + (a1 + rest.attempts) == (a0 + a1) + rest.attempts;
  }

  /** The run from the k-th series of the snapshot on. */
  function RunFrom(series: seq<Series>, k: nat, token: CancellationToken, http: nat -> Request -> HttpResult): (t: RunTrace)
    requires k <= |series|
    ensures |t.reports| <= |series| - k
    decreases |series| - k
  {
    if k == |series| then RunTrace([], [], RanToCompletion)
    else if token(k) then RunTrace([], [], Canceled)
    else if series[k].hasThemeSongs then
      Then([Progress(k + 1, |series|)], [], RunFrom(series, k + 1, token, http))
    else
      var d := DownloadThemeSong(series[k], http(k));
      if d.outcome == CancellationRethrown then RunTrace([], [Attempt(k, d)], Canceled)
      else if d.outcome == PathMissing then RunTrace([], [Attempt(k, d)], Faulted)
      else Then([Progress(k + 1, |series|)], [Attempt(k, d)], RunFrom(series, k + 1, token, http))
  }

  /** The whole run over a snapshot of the library. */
  function Run(series: seq<Series>, token: CancellationToken, http: nat -> Request -> HttpResult): RunTrace {
    RunFrom(series, 0, token, http)
  }

  /** Whether the run ends at the j-th series: the token is cancelled there, or the
      download for it leaves by an exception. */
  predicate StopsAt(series: seq<Series>, j: nat, token: CancellationToken, http: nat -> Request -> HttpResult)
    requires j < |series|
  {
    token(j) || (!series[j].hasThemeSongs && Escapes(DownloadThemeSong(series[j], http(j)).outcome))
  }

  predicate NoStopBetween(series: seq<Series>, k: nat, j: nat, token: CancellationToken, http: nat -> Request -> HttpResult)
    requires k <= j <= |series|
  {
    forall i :: k <= i < j ==> !StopsAt(series, i, token, http)
  }

  /** How a run that reaches the j-th series without stopping earlier ends. */
  function EndAt(series: seq<Series>, j: nat, token: CancellationToken, http: nat -> Request -> HttpResult): RunOutcome
    requires j <= |series|
  {
    if j == |series| then RanToCompletion
    else if token(j) then Canceled
    else if !series[j].hasThemeSongs && DownloadThemeSong(series[j], http(j)).outcome == PathMissing then Faulted
    else if !series[j].hasThemeSongs && DownloadThemeSong(series[j], http(j)).outcome == CancellationRethrown then Canceled
    else RanToCompletion
  }

  /** Every report is `processed / total` for the next processed count, and the run
      completes exactly when it has reported every series. */
  lemma {:induction false} RunFromReports(series: seq<Series>, k: nat, token: CancellationToken, http: nat -> Request -> HttpResult)
    requires k <= |series|
    ensures var t := RunFrom(series, k, token, http);
      && |t.reports| <= |series| - k
      && (forall j :: 0 <= j < |t.reports| ==> t.reports[j] == Progress(k + j + 1, |series|))
      && (t.outcome == RanToCompletion <==> |t.reports| == |series| - k)
    decreases |series| - k
  {
    if k < |series| && !token(k) {
      RunFromReports(series, k + 1, token, http);
    }
  }

  /** Downloads are attempted only for series without theme songs, in order of
      position, each with the answer for its own position. */
  lemma {:induction false} RunFromAttemptsValid(series: seq<Series>, k: nat, token: CancellationToken, http: nat -> Request -> HttpResult)
    requires k <= |series|
    ensures var t := RunFrom(series, k, token, http);
      && (forall a :: a in t.attempts ==>
            && k <= a.index < |series|
            && !series[a.index].hasThemeSongs
            && a.download == DownloadThemeSong(series[a.index], http(a.index)))
      && (forall i, j :: 0 <= i < j < |t.attempts| ==> t.attempts[i].index < t.attempts[j].index)
    decreases |series| - k
  {
    if k < |series| && !token(k) {
      RunFromAttemptsValid(series, k + 1, token, http);
    }
  }

  /** Every reported series without theme songs had a download attempted. */
  lemma {:induction false} RunFromAttemptsCover(series: seq<Series>, k: nat, token: CancellationToken, http: nat -> Request -> HttpResult)
    requires k <= |series|
    ensures var t := RunFrom(series, k, token, http);
      forall j :: k <= j < k + |t.reports| && !series[j].hasThemeSongs ==> exists a :: a in t.attempts && a.index == j
    decreases |series| - k
  {
    var t := RunFrom(series, k, token, http);
    if k < |series| && !token(k) {
      RunFromAttemptsCover(series, k + 1, token, http);
      var rest := RunFrom(series, k + 1, token, http);
      if !series[k].hasThemeSongs {
        var d := DownloadThemeSong(series[k], http(k));
        if !Escapes(d.outcome) {
          assert t.attempts == [Attempt(k, d)] + rest.attempts;
          assert t.attempts[0] in t.attempts;
          forall j | k < j < k + |t.reports| && !series[j].hasThemeSongs
            ensures exists a :: a in t.attempts && a.index == j
          {
            var a :| a in rest.attempts && a.index == j;
            assert a in t.attempts;
          }
        }
      } else {
        assert t.attempts == rest.attempts;
      }
    }
  }

  /** The only attempt after the last report is one that left by an exception; it
      is the last attempt and decides how the run ends. Swallowed failures were
      therefore reported and the loop went on past them. */
  lemma {:induction false} RunFromEscapeIsLast(series: seq<Series>, k: nat, token: CancellationToken, http: nat -> Request -> HttpResult)
    requires k <= |series|
    ensures var t := RunFrom(series, k, token, http);
      && (forall a :: a in t.attempts ==> a.index < k + |t.reports| || (a.index == k + |t.reports| && Escapes(a.download.outcome)))
      && (forall a :: a in t.attempts && Escapes(a.download.outcome) ==>
            && a == t.attempts[|t.attempts| - 1]
            && t.outcome == (if a.download.outcome == PathMissing then Faulted else Canceled))
    decreases |series| - k
  {
    if k < |series| && !token(k) {
      RunFromEscapeIsLast(series, k + 1, token, http);
      RunFromAttemptsValid(series, k + 1, token, http);
      var t := RunFrom(series, k, token, http);
      var rest := RunFrom(series, k + 1, token, http);
      if series[k].hasThemeSongs {
        assert t.attempts == rest.attempts;
      }
    }
  }

  /** The run ends at the first series where it stops (at the end when there is
      none): it has then reported exactly the series before it and touched no later
      series. */
  lemma {:induction false} RunFromEndsAtFirstStop(series: seq<Series>, k: nat, j: nat, token: CancellationToken, http: nat -> Request -> HttpResult)
    requires k <= j <= |series|
    requires NoStopBetween(series, k, j, token, http)
    requires j < |series| ==> StopsAt(series, j, token, http)
    ensures var t := RunFrom(series, k, token, http);
      && |t.reports| == j - k
      && t.outcome == EndAt(series, j, token, http)
      && (forall a :: a in t.attempts ==> a.index < j || (a.index == j && !token(j)))
    decreases j - k
  {
    if k < j {
      assert !StopsAt(series, k, token, http);
      RunFromEndsAtFirstStop(series, k + 1, j, token, http);
    }
  }

  // Corollaries for the whole run.

  /** An empty library: nothing reported, nothing fetched, normal completion. */
  lemma EmptyLibraryRun(token: CancellationToken, http: nat -> Request -> HttpResult)
    ensures Run([], token, http) == RunTrace([], [], RanToCompletion)
  {
  }

  /** The last report of a whole library is at 100%. */
  lemma FullProgress(n: nat)
    requires n > 0
    ensures Percent(Progress(n, n)) == 100.0
  {
    var m := n as real;
    assert m / m == 1.0;
  }

  /** A run that completes has made one report per series, the last at 100%. */
  lemma CompletedRun(series: seq<Series>, token: CancellationToken, http: nat -> Request -> HttpResult)
    requires Run(series, token, http).outcome == RanToCompletion
    ensures var t := Run(series, token, http);
      && |t.reports| == |series|
      && (|series| > 0 ==> var last := t.reports[|series| - 1]; last.total == |series| && Percent(last) == 100.0)
  {
    RunFromReports(series, 0, token, http);
    if |series| > 0 {
      FullProgress(|series|);
    }
  }

  /** A run that completes has attempted a download for exactly the series
      without theme songs. */
  lemma CompletedRunFetchesUnthemed(series: seq<Series>, token: CancellationToken, http: nat -> Request -> HttpResult)
    requires Run(series, token, http).outcome == RanToCompletion
    ensures var t := Run(series, token, http);
      forall j :: 0 <= j < |series| ==>
        (!series[j].hasThemeSongs <==> exists a :: a in t.attempts && a.index == j)
  {
    RunFromReports(series, 0, token, http);
    RunFromAttemptsValid(series, 0, token, http);
    RunFromAttemptsCover(series, 0, token, http);
  }

  lemma DivisionMonotone(a: real, b: real, n: real)
    requires a <= b && n > 0.0
    ensures a / n <= b / n
  {
    var q := (b - a) / n;
    assert q * n == b - a;
    assert b / n - a / n == q;
  }

  /** The reported percentages never decrease. */
  lemma ProgressNonDecreasing(series: seq<Series>, token: CancellationToken, http: nat -> Request -> HttpResult)
    ensures var t := Run(series, token, http);
      forall i, j :: 0 <= i <= j < |t.reports| ==>
        t.reports[i].total > 0 && t.reports[j].total > 0 && Percent(t.reports[i]) <= Percent(t.reports[j])
  {
    RunFromReports(series, 0, token, http);
    var t := Run(series, token, http);
    forall i, j | 0 <= i <= j < |t.reports|
      ensures t.reports[i].total > 0 && t.reports[j].total > 0 && Percent(t.reports[i]) <= Percent(t.reports[j])
    {
      var n := |series| as real;
      assert t.reports[i] == Progress(i + 1, |series|) && t.reports[j] == Progress(j + 1, |series|);
      DivisionMonotone((i + 1) as real, (j + 1) as real, n);
    }
  }

  /** A cancelled token before the j-th series, with no stop earlier: exactly the j
      series before it have been reported, none from it on has been touched, and the
      run ends cancelled. */
  lemma CancellationBeforeSeries(series: seq<Series>, j: nat, token: CancellationToken, http: nat -> Request -> HttpResult)
    requires j < |series| && token(j)
    requires NoStopBetween(series, 0, j, token, http)
    ensures var t := Run(series, token, http);
      && |t.reports| == j
      && t.outcome == Canceled
      && forall a :: a in t.attempts ==> a.index < j
  {
    RunFromEndsAtFirstStop(series, 0, j, token, http);
  }

  /** A download that times out is rethrown as cancellation and ends the whole run:
      the remaining series are not processed. */
  lemma TimeoutEndsRun(series: seq<Series>, j: nat, token: CancellationToken, http: nat -> Request -> HttpResult)
    requires j < |series| && !token(j) && !series[j].hasThemeSongs
    requires NoStopBetween(series, 0, j, token, http)
    requires var d := DownloadThemeSong(series[j], http(j));
      d.request.Some? && http(j)(d.request.value) == RequestTimedOut
    ensures var t := Run(series, token, http);
      && |t.reports| == j
      && t.outcome == Canceled
      && forall a :: a in t.attempts ==> a.index <= j
  {
    RunFromEndsAtFirstStop(series, 0, j, token, http);
  }

  // ---------------------------------------------------------------------------

  class ThemeSongsManager {
    var disposed: bool

    constructor ()
      ensures !disposed
    {
      disposed := false;
    }

    /** `ExecuteAsync`: the sequential loop over the snapshot of the library. */
    method ExecuteAsync(series: seq<Series>, token: CancellationToken, http: nat -> Request -> HttpResult)
      returns (trace: RunTrace)
      ensures trace == Run(series, token, http)
    {
      var totalSeries := |series|;
      var processedSeries := 0;
      var reports: seq<Progress> := [];
      var attempts: seq<Attempt> := [];
      var i := 0;
      while i < |series|
        invariant i <= |series| && processedSeries == i
        invariant Run(series, token, http) == Then(reports, attempts, RunFrom(series, i, token, http))
      {
        var serie := series[i];
        if token(i) {
          return RunTrace(reports, attempts, Canceled);
        }
        ghost var before := attempts;
        ghost var step: seq<Attempt> := [];
        if !serie.hasThemeSongs {
          var download := DownloadThemeSong(serie, http(i));
          attempts := attempts + [Attempt(i, download)];
          if download.outcome == CancellationRethrown {
            return RunTrace(reports, attempts, Canceled);
          }
          if download.outcome == PathMissing {
            return RunTrace(reports, attempts, Faulted);
          }
          step := [Attempt(i, download)];
        }
        ghost var rest := RunFrom(series, i + 1, token, http);
        assert RunFrom(series, i, token, http) == Then([Progress(i + 1, totalSeries)], step, rest);
        assert attempts == before + step;
        ThenThen(reports, before, [Progress(i + 1, totalSeries)], step, rest);
        processedSeries := processedSeries + 1;
        reports := reports + [Progress(processedSeries, totalSeries)];
        i := i + 1;
      }
      trace := RunTrace(reports, attempts, RanToCompletion);
    }

    /** `GetDefaultTriggers` of the manager itself: one daily trigger at 04:00. */
    static function GetDefaultTriggers(): (r: seq<TaskTriggerInfo>)
      ensures |r| == 1
      ensures r[0] == TaskTriggerInfo(DailyTrigger, None, Some(144_000_000_000))
    {
      [TaskTriggerInfo(DailyTrigger, None, FromHours(4))]
    }

    /** `Dispose()`: `Dispose(true)`; suppressing finalisation has no modelled effect. */
    method Dispose()
      modifies this
      ensures disposed
      ensures old(disposed) ==> unchanged(this)
    {
      DisposeCore(true);
    }

    /** `Dispose(bool)`: a no-op once disposed; otherwise marks the manager disposed. */
    method DisposeCore(disposing: bool)
      modifies this
      ensures disposed
      ensures old(disposed) ==> unchanged(this)
    {
      if disposed {
        return;
      }
      if disposing {
        // no managed resources to release
      }
      disposed := true;
    }
  }
}
