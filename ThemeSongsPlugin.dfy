/**
  The plugin object (`Plugin`): when the host hands it a new configuration of
  its own type it repairs a non-positive scan interval and a missing base URL in
  place, then stores the configuration.
 */
module ThemeSongsPlugin {
  import opened Framework
  import opened Configuration

  /** The interval and base URL `ValidateConfiguration` falls back to. */
  const FallbackScanInterval: int32 := 24
  const FallbackBaseUrl: string := "http://tvthemes.plexapp.com"

  /** The two facts normalisation establishes. */
  predicate IsNormal(s: Settings) {
    s.scanIntervalHours > 0 && !IsNullOrEmpty(s.themeSongBaseUrl)
  }

  /** The settings `ValidateConfiguration` leaves behind. */
  function Normalised(s: Settings): (r: Settings)
    ensures IsNormal(r)
    ensures r.scanIntervalHours == if s.scanIntervalHours <= 0 then FallbackScanInterval else s.scanIntervalHours
    ensures r.themeSongBaseUrl == if IsNullOrEmpty(s.themeSongBaseUrl) then Some(FallbackBaseUrl) else s.themeSongBaseUrl
    ensures r.maxConcurrentDownloads == s.maxConcurrentDownloads
    ensures r.themeSongFileName == s.themeSongFileName
    ensures r.enableAutoDownload == s.enableAutoDownload
    ensures r.skipExistingFiles == s.skipExistingFiles
    ensures r.enableNotifications == s.enableNotifications
  {
    var interval := if s.scanIntervalHours <= 0 then FallbackScanInterval else s.scanIntervalHours;
    var url := if IsNullOrEmpty(s.themeSongBaseUrl) then Some(FallbackBaseUrl) else s.themeSongBaseUrl;
    s.(scanIntervalHours := interval, themeSongBaseUrl := url)
  }

  /** Normalisation changes exactly the settings that are not already normal. */
  lemma NormalisedFixesExactlyTheAbnormal(s: Settings)
    ensures Normalised(s) == s <==> IsNormal(s)
  {
    if IsNormal(s) {
      assert Normalised(s) == s;
    }
  }

  /** Normalising twice is normalising once. */
  lemma NormalisedIdempotent(s: Settings)
    ensures Normalised(Normalised(s)) == Normalised(s)
  {
    NormalisedFixesExactlyTheAbnormal(Normalised(s));
  }

  /** Normalisation checks the base URL with `IsNullOrEmpty`, `Validate` with
      `IsNullOrWhiteSpace`: a blank base URL survives normalisation and is then
      refused by `Validate`. Likewise non-positive concurrency is not repaired. */
  lemma NormalisedNeedNotBeAcceptable()
    ensures var s := Defaults().(themeSongBaseUrl := Some(" "));
      Normalised(s) == s && Violates(Normalised(s), BaseUrlNotBlank)
    ensures var s := Defaults().(maxConcurrentDownloads := 0);
      Normalised(s) == s && Violates(Normalised(s), MaxConcurrentDownloadsPositive)
  {
    NullOrEmptyIsNullOrWhiteSpace(Some(" "));
  }

  /** A configuration handed to `UpdateConfiguration`: the plugin's own type, or
      any other `BasePluginConfiguration` (including `null`). */
  datatype Submitted = OfPluginType(config: PluginConfiguration) | OfOtherType

  function Footprint(submitted: Submitted): set<object> {
    if submitted.OfPluginType? then {submitted.config} else {}
  }

  class Plugin {
    /** The stored configuration (`BasePlugin<PluginConfiguration>.Configuration`). */
    var configuration: PluginConfiguration

    /** The host loads the stored configuration before the plugin runs. */
    constructor (loaded: PluginConfiguration)
      ensures configuration == loaded
    {
      configuration := loaded;
    }

    /** `ValidateConfiguration`: repairs the passed configuration in place. */
    method ValidateConfiguration(c: PluginConfiguration)
      modifies c
      ensures c.Snapshot() == Normalised(old(c.Snapshot()))
    {
      if c.scanIntervalHours <= 0 {
        c.scanIntervalHours := 24;
      }
      if IsNullOrEmpty(c.themeSongBaseUrl) {
        c.themeSongBaseUrl := Some("http://tvthemes.plexapp.com");
      }
    }

    /** `UpdateConfiguration`: only a configuration of the plugin's own type is
        normalised and stored; anything else leaves the plugin as it was. */
    method UpdateConfiguration(submitted: Submitted)
      modifies this, Footprint(submitted)
      ensures submitted.OfPluginType? ==>
        && configuration == submitted.config
        && configuration.Snapshot() == Normalised(old(submitted.config.Snapshot()))
      ensures submitted.OfOtherType? ==> unchanged(this)
    {
      if submitted.OfPluginType? {
        var pluginConfiguration := submitted.config;
        ValidateConfiguration(pluginConfiguration);
        configuration := pluginConfiguration;
      }
    }
  }
}
