/** The bookkeeping of `PageContext` (pytest_dsl_ui/core/page_context.py) that does not call
    Playwright: where screenshots and recordings are written, the recording-path state, and the
    viewport size reported for a page. Paths follow POSIX `os.path.isabs` and `pathlib` rules. */
module PageContexts {
  import opened Wrappers
  import opened PyStr

  const ScreenshotsDir: string := "screenshots"
  const VideosDir: string := "videos"

  /** `os.path.isabs(path)` on POSIX. */
  predicate IsAbs(path: string) {
    "/" <= path
  }

  /** The parts `pathlib` keeps from a relative path: empty parts (from repeated or trailing
      slashes) and "." parts are dropped, everything else is kept in order. */
  function Segments(parts: seq<string>): (segs: seq<string>)
    ensures |segs| <= |parts|
    ensures forall i :: 0 <= i < |segs| ==> segs[i] != "" && segs[i] != "."
  {
    if parts == [] then []
    else (if parts[0] == "" || parts[0] == "." then [] else [parts[0]]) + Segments(parts[1..])
  }

  /** A sequence of parts that are all kept is kept whole. */
  lemma {:induction false} SegmentsOfClean(parts: seq<string>)
    requires forall i :: 0 <= i < |parts| ==> parts[i] != "" && parts[i] != "."
    ensures Segments(parts) == parts
  {
    if parts != [] {
      SegmentsOfClean(parts[1..]);
    }
  }

  /** `dir / seg1 / seg2 / ...` as a string. */
  function PathJoin(dir: string, segs: seq<string>): string
    decreases |segs|
  {
    if segs == [] then dir else PathJoin(dir + "/" + segs[0], segs[1..])
  }

  /** Joining segments under `dir` puts `dir`, a slash and the segments joined by slashes. */
  lemma {:induction false} PathJoinIsJoin(dir: string, segs: seq<string>)
    requires |segs| >= 1
    ensures PathJoin(dir, segs) == dir + "/" + Join(segs, '/')
    decreases |segs|
  {
    if |segs| > 1 {
      PathJoinIsJoin(dir + "/" + segs[0], segs[1..]);
      assert dir + "/" + segs[0] + "/" + Join(segs[1..], '/') == dir + "/" + (segs[0] + "/" + Join(segs[1..], '/'));
    }
  }

  /** `str(Path(dir) / rel)` for a relative `rel`. */
  function JoinUnder(dir: string, rel: string): string {
    PathJoin(dir, Segments(Split(rel, '/')))
  }

  /** The joined path is `dir` itself when `rel` names nothing but "." and slashes, and otherwise
      `dir`, a slash and the kept parts of `rel`, so it always lies under `dir`. */
  lemma JoinUnderShape(dir: string, rel: string)
    ensures var segs := Segments(Split(rel, '/'));
      JoinUnder(dir, rel) == if segs == [] then dir else dir + "/" + Join(segs, '/')
    ensures dir <= JoinUnder(dir, rel)
  {
    var segs := Segments(Split(rel, '/'));
    if segs != [] {
      PathJoinIsJoin(dir, segs);
    }
  }

  /** A relative path without empty or "." parts is appended to `dir` after one slash, as is. */
  lemma CleanRelativeJoin(dir: string, rel: string)
    requires forall i :: 0 <= i < |Split(rel, '/')| ==> Split(rel, '/')[i] != "" && Split(rel, '/')[i] != "."
    ensures JoinUnder(dir, rel) == dir + "/" + rel
  {
    var parts := Split(rel, '/');
    SegmentsOfClean(parts);
    PathJoinIsJoin(dir, parts);
    JoinSplit(rel, '/');
  }

  /** Where a file goes: `path` when it is absolute, `dir / path` when it is relative, and
      `dir / defaultName` when no path is given. */
  function ResolveUnder(dir: string, path: Option<string>, defaultName: string): string {
    if path.None? then JoinUnder(dir, defaultName)
    else if IsAbs(path.value) then path.value
    else JoinUnder(dir, path.value)
  }

  /** The path `_screenshot_async` writes to; `timestamp` is the clock reading formatted with
      "%Y%m%d_%H%M%S". */
  function ScreenshotPath(path: Option<string>, timestamp: string): (r: string)
    ensures path.Some? && IsAbs(path.value) ==> r == path.value
    ensures !(path.Some? && IsAbs(path.value)) ==> ScreenshotsDir <= r
  {
    JoinUnderShape(ScreenshotsDir, if path.Some? then path.value else "screenshot_" + timestamp + ".png");
    ResolveUnder(ScreenshotsDir, path, "screenshot_" + timestamp + ".png")
  }

  /** The path `start_recording` records. */
  function RecordingTarget(path: Option<string>, timestamp: string): (r: string)
    ensures path.Some? && IsAbs(path.value) ==> r == path.value
    ensures !(path.Some? && IsAbs(path.value)) ==> VideosDir <= r
    ensures r != ""
  {
    JoinUnderShape(VideosDir, if path.Some? then path.value else "recording_" + timestamp + ".webm");
    ResolveUnder(VideosDir, path, "recording_" + timestamp + ".webm")
  }

  /** The length of `p` up to and including its last slash, 0 when it has none. */
  function HeadEnd(p: string): (n: nat)
    ensures n <= |p|
    ensures n == 0 <==> '/' !in p
  {
    if p == [] then 0
    else if p[|p| - 1] == '/' then |p|
    else
      var n := HeadEnd(p[..|p| - 1]);
      assert '/' in p[..|p| - 1] ==> '/' in p;
      assert '/' in p ==> '/' in p[..|p| - 1] by {
        if '/' in p {
          var i :| 0 <= i < |p| && p[i] == '/';
          assert p[..|p| - 1][i] == '/';
        }
      }
      n
  }

  /** `s.rstrip("/")`. */
  function TrimSlashes(s: string): (r: string)
    ensures r <= s
    ensures r == "" ==> forall i :: 0 <= i < |s| ==> s[i] == '/'
  {
    if s != [] && s[|s| - 1] == '/' then TrimSlashes(s[..|s| - 1]) else s
  }

  /** `os.path.dirname(p)` on POSIX: the part before the last slash, with trailing slashes
      removed unless it is made of slashes only. */
  function DirName(p: string): (d: string)
    ensures d == "" <==> '/' !in p
  {
    var head := p[..HeadEnd(p)];
    if head != "" && exists i :: 0 <= i < |head| && head[i] != '/' then
      var d := TrimSlashes(head);
      assert d != "" by {
        var i :| 0 <= i < |head| && head[i] != '/';
      }
      d
    else head
  }

  /** Why a file cannot be written: `os.makedirs("")` raises `FileNotFoundError`, which happens
      when the target path has no directory part. */
  datatype SaveError = NoDirectory(path: string)

  /** A resolved path has no directory part exactly when it is relative and `pathlib` keeps
      nothing of it, so that the join gives the bare directory name. */
  lemma {:induction false} ResolvedWithoutDirectory(dir: string, path: Option<string>, defaultName: string)
    requires dir != "" && '/' !in dir
    ensures var rel := if path.Some? then path.value else defaultName;
      DirName(ResolveUnder(dir, path, defaultName)) == "" <==>
        !(path.Some? && IsAbs(path.value)) && Segments(Split(rel, '/')) == []
  {
    var rel := if path.Some? then path.value else defaultName;
    if path.Some? && IsAbs(path.value) {
      assert path.value[0] == '/';
    } else {
      JoinUnderShape(dir, rel);
      var segs := Segments(Split(rel, '/'));
      if segs != [] {
        assert (dir + "/" + Join(segs, '/'))[|dir|] == '/';
      }
    }
  }

  /** `_screenshot_async` up to the Playwright call: the path it writes to, or the error
      `os.makedirs` raises. */
  function ScreenshotOutcome(path: Option<string>, timestamp: string): (r: Result<string, SaveError>)
    ensures r.Success? ==> r.value == ScreenshotPath(path, timestamp)
    ensures var rel := if path.Some? then path.value else "screenshot_" + timestamp + ".png";
      r.Failure? <==> !(path.Some? && IsAbs(path.value)) && Segments(Split(rel, '/')) == []
  {
    ResolvedWithoutDirectory(ScreenshotsDir, path, "screenshot_" + timestamp + ".png");
    var target := ScreenshotPath(path, timestamp);
    if DirName(target) == "" then Failure(NoDirectory(target)) else Success(target)
  }

  /** What `start_recording` does before storing the path: the resolved path, or the error
      `os.makedirs` raises. */
  function RecordingOutcome(path: Option<string>, timestamp: string): (r: Result<string, SaveError>)
    ensures r.Success? ==> r.value == RecordingTarget(path, timestamp)
    ensures var rel := if path.Some? then path.value else "recording_" + timestamp + ".webm";
      r.Failure? <==> !(path.Some? && IsAbs(path.value)) && Segments(Split(rel, '/')) == []
  {
    ResolvedWithoutDirectory(VideosDir, path, "recording_" + timestamp + ".webm");
    var target := RecordingTarget(path, timestamp);
    if DirName(target) == "" then Failure(NoDirectory(target)) else Success(target)
  }

  /** A relative path of which `pathlib` keeps nothing names the bare directory, so saving a
      screenshot or starting a recording there fails. */
  lemma BareDirectoryFails(rel: string, timestamp: string)
    requires !IsAbs(rel) && Segments(Split(rel, '/')) == []
    ensures ScreenshotOutcome(Some(rel), timestamp) == Failure(NoDirectory(ScreenshotsDir))
    ensures RecordingOutcome(Some(rel), timestamp) == Failure(NoDirectory(VideosDir))
  {
    JoinUnderShape(ScreenshotsDir, rel);
    JoinUnderShape(VideosDir, rel);
  }

  /** `pathlib` keeps nothing of "", "." and "./". */
  lemma NothingKept(rel: string)
    requires rel == "" || rel == "." || rel == "./"
    ensures !IsAbs(rel) && Segments(Split(rel, '/')) == []
  {
    if rel == "./" {
      assert rel[1] == '/' && rel[0] != '/';
      assert FirstIndex(rel, '/') == 1;
      assert rel[..1] == "." && rel[2..] == "";
      assert Split(rel, '/') == ["."] + Split("", '/');
      assert Segments([".", ""]) == [];
    } else {
      assert rel == [] || (|rel| == 1 && rel[0] == '.');
      assert '/' !in rel;
      assert Split(rel, '/') == [rel];
      assert [rel][1..] == [];
      assert Segments([rel]) == [];
    }
  }

  /** An empty path, "." or "./" names the bare directory, which has no directory part, so
      both saving a screenshot and starting a recording fail on them. */
  lemma EmptyRelativeFails(rel: string, timestamp: string)
    requires rel == "" || rel == "." || rel == "./"
    ensures ScreenshotOutcome(Some(rel), timestamp) == Failure(NoDirectory("screenshots"))
    ensures RecordingOutcome(Some(rel), timestamp) == Failure(NoDirectory("videos"))
  {
    NothingKept(rel);
    BareDirectoryFails(rel, timestamp);
  }

  /** A clean relative screenshot path lands in the screenshots directory as written. */
  lemma RelativeScreenshot(path: string, timestamp: string)
    requires !IsAbs(path)
    requires forall i :: 0 <= i < |Split(path, '/')| ==> Split(path, '/')[i] != "" && Split(path, '/')[i] != "."
    ensures ScreenshotPath(Some(path), timestamp) == ScreenshotsDir + "/" + path
  {
    CleanRelativeJoin(ScreenshotsDir, path);
  }

  /** A file name with no slash in it is not cut into parts. */
  lemma SingleName(name: string)
    requires '/' !in name && name != "" && name != "."
    ensures forall i :: 0 <= i < |Split(name, '/')| ==> Split(name, '/')[i] != "" && Split(name, '/')[i] != "."
  {
    assert Split(name, '/') == [name];
  }

  /** Without a path, a screenshot is named after the clock reading. */
  lemma DefaultScreenshot(timestamp: string)
    requires '/' !in timestamp
    ensures ScreenshotPath(None, timestamp) == "screenshots/screenshot_" + timestamp + ".png"
    ensures ScreenshotOutcome(None, timestamp) == Success(ScreenshotPath(None, timestamp))
  {
    var name := "screenshot_" + timestamp + ".png";
    assert name[0] == 's';
    assert '/' !in name by {
      assert forall i :: 0 <= i < |name| && i >= 11 && i < 11 + |timestamp| ==> name[i] == timestamp[i - 11];
    }
    SingleName(name);
    CleanRelativeJoin(ScreenshotsDir, name);
    assert ScreenshotPath(None, timestamp)[11] == '/';
  }

  /** Without a path, a recording is named after the clock reading. */
  lemma DefaultRecording(timestamp: string)
    requires '/' !in timestamp
    ensures RecordingTarget(None, timestamp) == "videos/recording_" + timestamp + ".webm"
    ensures RecordingOutcome(None, timestamp) == Success(RecordingTarget(None, timestamp))
  {
    var name := "recording_" + timestamp + ".webm";
    assert name[0] == 'r';
    assert '/' !in name by {
      assert forall i :: 0 <= i < |name| && i >= 10 && i < 10 + |timestamp| ==> name[i] == timestamp[i - 10];
    }
    SingleName(name);
    CleanRelativeJoin(VideosDir, name);
    assert RecordingTarget(None, timestamp)[6] == '/';
  }

  /** The parts of `./a//b`: a "." part and an empty part around the two names. */
  lemma DottedParts(a: string, b: string)
    requires '/' !in a && '/' !in b
    ensures Split("./" + a + "//" + b, '/') == [".", a, "", b]
  {
    var parts := [".", a, "", b];
    assert Join(parts[3..], '/') == b;
    assert Join(parts[2..], '/') == "/" + b;
    assert Join(parts[1..], '/') == a + "//" + b;
    assert Join(parts, '/') == "./" + a + "//" + b;
    assert forall i :: 0 <= i < |parts| ==> '/' !in parts[i];
    SplitJoin(parts, '/');
  }

  /** `pathlib` drops a leading "." part and collapses a doubled slash: `./a//b` under `dir` is
      `dir/a/b`. */
  lemma NormalisedJoin(dir: string, a: string, b: string)
    requires '/' !in a && a != "" && a != "."
    requires '/' !in b && b != "" && b != "."
    ensures JoinUnder(dir, "./" + a + "//" + b) == dir + "/" + a + "/" + b
  {
    DottedParts(a, b);
    var parts := [".", a, "", b];
    assert Segments(parts[3..]) == [b];
    assert Segments(parts[2..]) == [b];
    assert Segments(parts[1..]) == [a, b];
    assert Segments(parts) == [a, b];
    PathJoinIsJoin(dir, [a, b]);
    assert Join([a, b], '/') == a + "/" + b;
  }

  /** A page's viewport size; `None` when Playwright reports none. */
  datatype Size = Size(width: int, height: int)

  /** `get_viewport_size`: the page's width and height, or 0 by 0 when it has no viewport. */
  function ViewportSize(viewport: Option<Size>): (r: Size)
    ensures viewport.Some? ==> r.width == viewport.value.width && r.height == viewport.value.height
    ensures viewport.None? ==> r.width == 0 && r.height == 0
  {
    if viewport.Some? then Size(viewport.value.width, viewport.value.height) else Size(0, 0)
  }

  /** Python truthiness of an optional path: neither `None` nor "". */
  predicate Truthy(path: Option<string>) {
    path.Some? && path.value != ""
  }

  class PageContext {
    var recordingPath: Option<string>

    /** A recorded path is never empty, so "recording" (a truthy path) and "a path is set"
        coincide. */
    ghost predicate Valid()
      reads this
    {
      recordingPath.Some? ==> recordingPath.value != ""
    }

    /** `PageContext(page)`: not recording. */
    constructor()
      ensures Valid() && recordingPath == None
    {
      recordingPath := None;
    }

    /** `start_recording`: resolve where the video goes (relative paths under the videos
        directory, absolute ones as given, a timestamped name when none is given), make sure its
        directory exists, then remember the path and return it. When the path has no directory
        part, `os.makedirs("")` raises and nothing is remembered. */
    method StartRecording(path: Option<string>, timestamp: string) returns (r: Result<string, SaveError>)
      requires Valid()
      modifies this
      ensures Valid()
      ensures r == RecordingOutcome(path, timestamp)
      ensures r.Success? ==> recordingPath == Some(r.value)
      ensures r.Failure? ==> recordingPath == old(recordingPath)
    {
      var target;
      if path.None? {
        target := JoinUnder(VideosDir, "recording_" + timestamp + ".webm");
      } else if IsAbs(path.value) {
        target := path.value;
      } else {
        target := JoinUnder(VideosDir, path.value);
      }
      assert target == RecordingTarget(path, timestamp);
      if DirName(target) == "" {
        return Failure(NoDirectory(target));
      }
      recordingPath := Some(target);
      r := Success(target);
    }

    /** `stop_recording`: hand back the recorded path and forget it; when not recording, return
        `None` and change nothing. */
    method StopRecording() returns (r: Option<string>)
      requires Valid()
      modifies this
      ensures Valid()
      ensures Truthy(old(recordingPath)) ==> r == old(recordingPath) && recordingPath == None
      ensures !Truthy(old(recordingPath)) ==> r == None && recordingPath == old(recordingPath)
      ensures r == old(recordingPath) && recordingPath == None
    {
      if recordingPath.Some? && recordingPath.value != "" {
        r := recordingPath;
        recordingPath := None;
      } else {
        r := None;
      }
    }
  }

  /** Starting and then stopping a recording returns the path that starting it returned, and
      leaves the context not recording; when starting fails, stopping returns `None`. */
  method RecordingRoundTrip(path: Option<string>, timestamp: string)
    returns (started: Result<string, SaveError>, stopped: Option<string>, after: Option<string>)
    ensures started == RecordingOutcome(path, timestamp)
    ensures started.Success? ==> stopped == Some(started.value) && started.value == RecordingTarget(path, timestamp)
    ensures started.Failure? ==> stopped == None
    ensures after == None
  {
    var context := new PageContext();
    started := context.StartRecording(path, timestamp);
    stopped := context.StopRecording();
    after := context.recordingPath;
  }
}
