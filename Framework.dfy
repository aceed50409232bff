/**
  The pieces of the .NET base class library and of the Jellyfin host that the
  plugin's core relies on, stated with the behaviour the core depends on:
  nullable strings, 32-bit integers, the `string.IsNullOrEmpty` and
  `string.IsNullOrWhiteSpace` tests, `Path.Combine` on a Unix host,
  `TimeSpan.FromHours` in ticks, cancellation tokens and task trigger records.
 */
module Framework {

  /** A nullable reference: `None` stands for `null`. */
  datatype Option<+T> = None | Some(value: T)

  /** C#'s `int`. */
  type int32 = x: int | -0x8000_0000 <= x <= 0x7FFF_FFFF

  const Int64Min: int := -0x8000_0000_0000_0000
  const Int64Max: int := 0x7FFF_FFFF_FFFF_FFFF

  /** `string.IsNullOrEmpty`. */
  predicate IsNullOrEmpty(s: Option<string>) {
    s.None? || s.value == ""
  }

  /** `char.IsWhiteSpace`: the Unicode white-space characters (categories Zs, Zl, Zp)
      and the control characters U+0009 to U+000D and U+0085. */
  predicate IsWhiteSpace(c: char) {
    var n := c as int;
    || 0x09 <= n <= 0x0D
    || n == 0x20 || n == 0x85 || n == 0xA0 || n == 0x1680
    || 0x2000 <= n <= 0x200A
    || n == 0x2028 || n == 0x2029 || n == 0x202F || n == 0x205F || n == 0x3000
  }

  /** `string.IsNullOrWhiteSpace`. */
  predicate IsNullOrWhiteSpace(s: Option<string>) {
    s.None? || forall i :: 0 <= i < |s.value| ==> IsWhiteSpace(s.value[i])
  }

  lemma {:induction false} NullOrEmptyIsNullOrWhiteSpace(s: Option<string>)
    ensures IsNullOrEmpty(s) ==> IsNullOrWhiteSpace(s)
    ensures IsNullOrWhiteSpace(Some(" ")) && !IsNullOrEmpty(Some(" "))
  {
    assert IsWhiteSpace(" "[0]);
  }

  // ---------------------------------------------------------------------------
  // System.IO.Path on a Unix host: the directory separator, the alternative
  // separator and the volume separator are all '/'.

  /** `Path.IsPathRooted` on Unix. */
  predicate IsPathRooted(p: string) {
    |p| > 0 && p[0] == '/'
  }

  /** `Path.Combine(path1, path2)`: `None` means it throws `ArgumentNullException`
      (the only check it makes). A rooted second path replaces the first. */
  function PathCombine(path1: Option<string>, path2: string): (r: Option<string>)
    ensures r.None? <==> path1.None?
  {
    if path1.None? then None
    else if |path2| == 0 then path1
    else if |path1.value| == 0 || IsPathRooted(path2) then Some(path2)
    else if path1.value[|path1.value| - 1] == '/' then Some(path1.value + path2)
    else Some(path1.value + "/" + path2)
  }

  /** `Path.GetFileName` on Unix: whatever follows the last '/'. */
  function FileName(p: string): (r: string)
    ensures '/' !in r
    decreases |p|
  {
    if p == [] || p[|p| - 1] == '/' then []
    else FileName(p[..|p| - 1]) + [p[|p| - 1]]
  }

  lemma {:induction false} FileNameAfterSeparator(dir: string, name: string)
    requires |dir| > 0 && dir[|dir| - 1] == '/' && '/' !in name
    ensures FileName(dir + name) == name
    decreases |name|
  {
    if name == [] {
      assert dir + name == dir;
    } else {
      var init := name[..|name| - 1];
      assert (dir + name)[..|dir + name| - 1] == dir + init;
      FileNameAfterSeparator(dir, init);
      assert name == init + [name[|name| - 1]];
    }
  }

  /** For a plain file name (not rooted, no separator) joined to a non-empty
      directory, the result lies in that directory and keeps the file name. */
  lemma CombineKeepsFileNameInDirectory(dir: string, name: string)
    requires dir != "" && name != "" && '/' !in name
    ensures PathCombine(Some(dir), name).Some?
    ensures var p := PathCombine(Some(dir), name).value;
      && FileName(p) == name
      && p[..|dir|] == dir
      && p[|dir|..|p| - |name|] == (if dir[|dir| - 1] == '/' then "" else "/")
  {
    assert !IsPathRooted(name) by { assert name[0] in name; }
    var p := PathCombine(Some(dir), name).value;
    if dir[|dir| - 1] == '/' {
      FileNameAfterSeparator(dir, name);
    } else {
      assert p == (dir + "/") + name;
      FileNameAfterSeparator(dir + "/", name);
    }
  }

  // ---------------------------------------------------------------------------
  // System.TimeSpan

  /** One hour in 100-nanosecond ticks (`TimeSpan.TicksPerHour`). */
  const TicksPerHour: int := 36_000_000_000

  /** The largest whole number of hours a `TimeSpan` holds: `long.MaxValue / TicksPerHour`. */
  const MaxHours: int := 256_204_778

  /** `TimeSpan.FromHours(hours).Ticks`, `None` when it throws because the
      span does not fit in a 64-bit tick count. */
  function FromHours(hours: int32): (r: Option<int>)
    ensures r.Some? <==> Int64Min <= hours * TicksPerHour <= Int64Max
    ensures r.Some? ==> r.value == hours * TicksPerHour
  {
    if -MaxHours <= hours <= MaxHours then Some(hours * TicksPerHour) else None
  }

  /** `TimeSpan.TotalHours` of a whole-hour tick count. */
  function TotalHours(ticks: int): int {
    ticks / TicksPerHour
  }

  lemma HoursRoundTrip(hours: int32)
    requires FromHours(hours).Some?
    ensures TotalHours(FromHours(hours).value) == hours
  {
  }

  // ---------------------------------------------------------------------------
  // System.Threading.CancellationToken

  /** A cancellation token, seen through what `IsCancellationRequested` reports
      at the k-th point where the code looks at it. */
  type CancellationToken = nat -> bool

  // ---------------------------------------------------------------------------
  // MediaBrowser.Model.Tasks.TaskTriggerInfo

  datatype TriggerType = IntervalTrigger | DailyTrigger

  /** A scheduled-task trigger; the tick fields the core leaves unset are `None`. */
  datatype TaskTriggerInfo = TaskTriggerInfo(
    triggerType: TriggerType,
    intervalTicks: Option<int>,
    timeOfDayTicks: Option<int>)
}
