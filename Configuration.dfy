/**
  The plugin's configuration record (`PluginConfiguration`): its seven settings,
  the defaults the constructor and `ResetToDefaults` assign, and `Validate`, which
  throws on the first of four rules the settings break.
 */
module Configuration {
  import opened Framework

  const DefaultScanInterval: int32 := 24
  const DefaultMaxConcurrentDownloads: int32 := 3
  const DefaultThemeSongFileName: string := "theme.mp3"
  const DefaultThemeSongBaseUrl: string := "http://tvthemes.plexapp.com"

  /** The values of a configuration's fields at one moment. */
  datatype Settings = Settings(
    enableAutoDownload: bool,
    scanIntervalHours: int32,
    maxConcurrentDownloads: int32,
    themeSongFileName: Option<string>,
    themeSongBaseUrl: Option<string>,
    skipExistingFiles: bool,
    enableNotifications: bool)

  /** What a freshly constructed configuration holds. */
  function Defaults(): Settings {
    Settings(true, DefaultScanInterval, DefaultMaxConcurrentDownloads,
             Some(DefaultThemeSongFileName), Some(DefaultThemeSongBaseUrl), true, true)
  }

  /** The four rules `Validate` enforces, each of which throws an `ArgumentException`. */
  datatype Rule =
    | ScanIntervalPositive
    | MaxConcurrentDownloadsPositive
    | FileNameNotBlank
    | BaseUrlNotBlank

  /** The order in which `Validate` checks the rules. */
  function Rank(rule: Rule): nat {
    match rule
    case ScanIntervalPositive => 0
    case MaxConcurrentDownloadsPositive => 1
    case FileNameNotBlank => 2
    case BaseUrlNotBlank => 3
  }

  /** Whether `s` breaks `rule`. */
  predicate Violates(s: Settings, rule: Rule) {
    match rule
    case ScanIntervalPositive => s.scanIntervalHours <= 0
    case MaxConcurrentDownloadsPositive => s.maxConcurrentDownloads <= 0
    case FileNameNotBlank => IsNullOrWhiteSpace(s.themeSongFileName)
    case BaseUrlNotBlank => IsNullOrWhiteSpace(s.themeSongBaseUrl)
  }

  /** Whether `s` breaks none of the rules. */
  predicate Acceptable(s: Settings) {
    forall rule :: !Violates(s, rule)
  }

  class PluginConfiguration {
    var enableAutoDownload: bool
    var scanIntervalHours: int32
    var maxConcurrentDownloads: int32
    var themeSongFileName: Option<string>
    var themeSongBaseUrl: Option<string>
    var skipExistingFiles: bool
    var enableNotifications: bool

    /** The current values of all seven fields. */
    function Snapshot(): Settings
      reads this
    {
      Settings(enableAutoDownload, scanIntervalHours, maxConcurrentDownloads,
               themeSongFileName, themeSongBaseUrl, skipExistingFiles, enableNotifications)
    }

    constructor ()
      ensures Snapshot() == Defaults()
    {
      enableAutoDownload := true;
      scanIntervalHours := DefaultScanInterval;
      maxConcurrentDownloads := DefaultMaxConcurrentDownloads;
      themeSongFileName := Some(DefaultThemeSongFileName);
      themeSongBaseUrl := Some("http://tvthemes.plexapp.com");
      skipExistingFiles := true;
      enableNotifications := true;
    }

    /** `Validate`: `None` when it returns normally, `Some(rule)` when it throws
        for `rule`. It only reads the fields. */
    function Validate(): (r: Option<Rule>)
      reads this
      ensures r.None? <==> Acceptable(Snapshot())
      ensures r.Some? ==> Violates(Snapshot(), r.value)
      ensures r.Some? ==> forall rule :: Rank(rule) < Rank(r.value) ==> !Violates(Snapshot(), rule)
    {
      if scanIntervalHours <= 0 then
        assert Violates(Snapshot(), ScanIntervalPositive);
        Some(ScanIntervalPositive)
      else if maxConcurrentDownloads <= 0 then
        assert Violates(Snapshot(), MaxConcurrentDownloadsPositive);
        Some(MaxConcurrentDownloadsPositive)
      else if IsNullOrWhiteSpace(themeSongFileName) then
        assert Violates(Snapshot(), FileNameNotBlank);
        Some(FileNameNotBlank)
      else if IsNullOrWhiteSpace(themeSongBaseUrl) then
        assert Violates(Snapshot(), BaseUrlNotBlank);
        Some(BaseUrlNotBlank)
      else None
    }

    /** `ResetToDefaults`: every field back to its constructor value, whatever it held. */
    method ResetToDefaults()
      modifies this
      ensures Snapshot() == Defaults()
    {
      enableAutoDownload := true;
      scanIntervalHours := DefaultScanInterval;
      maxConcurrentDownloads := DefaultMaxConcurrentDownloads;
      themeSongFileName := Some(DefaultThemeSongFileName);
      themeSongBaseUrl := Some("http://tvthemes.plexapp.com");
      skipExistingFiles := true;
      enableNotifications := true;
    }
  }

  /** The defaults break none of the rules. */
  lemma DefaultsAreAcceptable()
    ensures Acceptable(Defaults())
  {
    var s := Defaults();
    assert !IsWhiteSpace(DefaultThemeSongFileName[0]);
    assert !IsWhiteSpace(DefaultThemeSongBaseUrl[0]);
    assert !IsNullOrWhiteSpace(s.themeSongFileName);
    assert !IsNullOrWhiteSpace(s.themeSongBaseUrl);
  }

  /** A configuration holding the defaults (after construction or `ResetToDefaults`)
      passes `Validate`. */
  lemma DefaultsPassValidation(c: PluginConfiguration)
    requires c.Snapshot() == Defaults()
    ensures c.Validate().None?
  {
    DefaultsAreAcceptable();
  }
}
