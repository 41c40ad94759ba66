/**
 * Resource path resolution (src/utils/paths.py) over a model of POSIX
 * `pathlib` paths: an absolute flag and a list of components.
 */
module Paths {
  import opened Common

  /** A normalised path: empty parts with `absolute` false is ".", with `absolute` true is "/". */
  datatype Path = Path(absolute: bool, parts: seq<string>)

  /** Components a parsed path can hold: not "", not ".", no separator. */
  predicate GoodPart(p: string)
  {
    p != "" && p != "." && '/' !in p
  }

  predicate WellFormed(p: Path)
  {
    forall i :: 0 <= i < |p.parts| ==> GoodPart(p.parts[i])
  }

  /** `s.split("/")`. */
  function Split(s: string): (parts: seq<string>)
    ensures |parts| >= 1
  {
    if s == [] then [""]
    else
      var rest := Split(s[1..]);
      if s[0] == '/' then [""] + rest else [[s[0]] + rest[0]] + rest[1..]
  }

  /** `"/".join(parts)`. */
  function JoinSlash(parts: seq<string>): string
  {
    if parts == [] then ""
    else if |parts| == 1 then parts[0]
    else parts[0] + "/" + JoinSlash(parts[1..])
  }

  function KeepGood(parts: seq<string>): (r: seq<string>)
    ensures forall i :: 0 <= i < |r| ==> r[i] != "" && r[i] != "."
  {
    if parts == [] then []
    else if parts[0] == "" || parts[0] == "." then KeepGood(parts[1..])
    else [parts[0]] + KeepGood(parts[1..])
  }

  /** `PurePosixPath(s)`: repeated separators and "." components drop out. */
  function PathOf(s: string): (p: Path)
    ensures p.absolute == (|s| > 0 && s[0] == '/')
  {
    Path(|s| > 0 && s[0] == '/', KeepGood(Split(s)))
  }

  /** `str(path)`. */
  function ToText(p: Path): string
  {
    if p.absolute then "/" + JoinSlash(p.parts)
    else if p.parts == [] then "."
    else JoinSlash(p.parts)
  }

  /** `path.parent`: "." and "/" are their own parents. */
  function Parent(p: Path): (r: Path)
    ensures r.absolute == p.absolute
    ensures |p.parts| > 0 ==> r.parts == p.parts[..|p.parts| - 1]
    ensures |p.parts| == 0 ==> r == p
  {
    if p.parts == [] then p else Path(p.absolute, p.parts[..|p.parts| - 1])
  }

  /** `path / s`: an absolute right-hand side replaces the left. */
  function Join(p: Path, s: string): (r: Path)
    ensures s != "" && s[0] == '/' ==> r == PathOf(s)
    ensures (s == "" || s[0] != '/') ==> r == Path(p.absolute, p.parts + PathOf(s).parts)
  {
    var q := PathOf(s);
    if q.absolute then q else Path(p.absolute, p.parts + q.parts)
  }

  // ---------------------------------------------------------------------
  // The round trip between parsing and rendering

  lemma {:induction false} SplitNoSlash(a: string)
    requires '/' !in a
    ensures Split(a) == [a]
  {
    if a != [] {
      SplitNoSlash(a[1..]);
      assert [a[0]] + a[1..] == a;
    }
  }

  lemma {:induction false} SplitAround(a: string, b: string)
    requires '/' !in a
    ensures Split(a + "/" + b) == [a] + Split(b)
  {
    if a == [] {
      assert a + "/" + b == "/" + b;
      assert ("/" + b)[1..] == b;
    } else {
      assert (a + "/" + b)[1..] == a[1..] + "/" + b;
      SplitAround(a[1..], b);
      assert [a[0]] + a[1..] == a;
    }
  }

  lemma {:induction false} SplitJoin(parts: seq<string>)
    requires |parts| >= 1
    requires forall i :: 0 <= i < |parts| ==> '/' !in parts[i]
    ensures Split(JoinSlash(parts)) == parts
  {
    if |parts| == 1 {
      SplitNoSlash(parts[0]);
    } else {
      SplitAround(parts[0], JoinSlash(parts[1..]));
      SplitJoin(parts[1..]);
    }
  }

  lemma {:induction false} KeepGoodKeeps(parts: seq<string>)
    requires forall i :: 0 <= i < |parts| ==> GoodPart(parts[i])
    ensures KeepGood(parts) == parts
  {
    if parts != [] {
      KeepGoodKeeps(parts[1..]);
    }
  }

  lemma {:induction false} KeepGoodGood(parts: seq<string>)
    requires forall i :: 0 <= i < |parts| ==> '/' !in parts[i]
    ensures forall i :: 0 <= i < |KeepGood(parts)| ==> GoodPart(KeepGood(parts)[i])
  {
    if parts != [] {
      KeepGoodGood(parts[1..]);
    }
  }

  lemma {:induction false} SplitHasNoSlash(s: string)
    ensures forall i :: 0 <= i < |Split(s)| ==> '/' !in Split(s)[i]
  {
    if s != [] {
      SplitHasNoSlash(s[1..]);
    }
  }

  /** Every parsed path is well formed. */
  lemma PathOfWellFormed(s: string)
    ensures WellFormed(PathOf(s))
  {
    SplitHasNoSlash(s);
    KeepGoodGood(Split(s));
  }

  /** Rendering a well-formed path and parsing the text gives the path back. */
  lemma RoundTrip(p: Path)
    requires WellFormed(p)
    ensures PathOf(ToText(p)) == p
  {
    var t := ToText(p);
    if p.parts == [] {
      if p.absolute {
        assert Split("/") == ["", ""];
      } else {
        SplitNoSlash(".");
      }
    } else {
      SplitJoin(p.parts);
      KeepGoodKeeps(p.parts);
      if p.absolute {
        assert t[1..] == JoinSlash(p.parts);
        assert Split(t) == [""] + p.parts;
      } else {
        assert p.parts[0] != "" && p.parts[0][0] != '/';
        JoinStartsWith(p.parts);
      }
    }
  }

  lemma {:induction false} JoinStartsWith(parts: seq<string>)
    requires |parts| >= 1 && parts[0] != ""
    ensures |JoinSlash(parts)| > 0 && JoinSlash(parts)[0] == parts[0][0]
  {
  }

  // ---------------------------------------------------------------------
  // src/utils/paths.py

  /** What `get_project_root` reads from the interpreter: `sys.frozen`, `sys._MEIPASS`, `__file__`. */
  datatype Runtime = Runtime(frozen: bool, meipass: Option<string>, moduleFile: string)

  const DefaultModelName: string := "vosk-model-pt-fb-v0.1.1-20220516_2113"

  /** The directory three levels above the module file (paths.py -> utils -> src -> root). */
  function SourceRoot(rt: Runtime): Path
  {
    Parent(Parent(Parent(PathOf(rt.moduleFile))))
  }

  function GetProjectRoot(rt: Runtime): (r: Path)
    ensures rt.frozen && rt.meipass.Some? && rt.meipass.value != "" ==> r == PathOf(rt.meipass.value)
    ensures !(rt.frozen && rt.meipass.Some? && rt.meipass.value != "") ==> r == SourceRoot(rt)
  {
    if rt.frozen && rt.meipass.Some? && rt.meipass.value != "" then PathOf(rt.meipass.value)
    else SourceRoot(rt)
  }

  function GetModelPath(rt: Runtime, modelName: string := DefaultModelName): Path
  {
    Join(Join(GetProjectRoot(rt), "stt_models"), modelName)
  }

  function GetAssetsPath(rt: Runtime): Path
  {
    Join(GetProjectRoot(rt), "assets")
  }

  /** Outside a frozen build the root is the module path with its last three components removed. */
  lemma SourceRootDropsThree(rt: Runtime)
    requires !rt.frozen
    requires |PathOf(rt.moduleFile).parts| >= 3
    ensures var f := PathOf(rt.moduleFile);
      GetProjectRoot(rt) == Path(f.absolute, f.parts[..|f.parts| - 3])
  {
    var f := PathOf(rt.moduleFile);
    var n := |f.parts|;
    assert f.parts[..n - 1][..n - 2] == f.parts[..n - 2];
    assert f.parts[..n - 2][..n - 3] == f.parts[..n - 3];
  }

  /** A frozen build without a usable `_MEIPASS` falls back to the same root as a script run. */
  lemma FrozenFallback(rt: Runtime)
    requires rt.frozen && (rt.meipass.None? || rt.meipass.value == "")
    ensures GetProjectRoot(rt) == GetProjectRoot(rt.(frozen := false))
  {
  }

  lemma SinglePart(name: string)
    requires GoodPart(name)
    ensures PathOf(name) == Path(false, [name])
  {
    SplitNoSlash(name);
    KeepGoodKeeps([name]);
  }

  /** For a plain model name, the model directory is root / "stt_models" / name. */
  lemma ModelPathShape(rt: Runtime, name: string)
    requires GoodPart(name)
    ensures GetModelPath(rt, name) ==
      Path(GetProjectRoot(rt).absolute, GetProjectRoot(rt).parts + ["stt_models", name])
  {
    SinglePart("stt_models");
    SinglePart(name);
  }

  /** The default model lives at root / "stt_models" / "vosk-model-pt-fb-v0.1.1-20220516_2113". */
  lemma DefaultModelPath(rt: Runtime)
    ensures GetModelPath(rt) ==
      Path(GetProjectRoot(rt).absolute, GetProjectRoot(rt).parts + ["stt_models", DefaultModelName])
  {
    ModelPathShape(rt, DefaultModelName);
  }

  /** The assets directory is root / "assets". */
  lemma AssetsPathShape(rt: Runtime)
    ensures GetAssetsPath(rt) == Path(GetProjectRoot(rt).absolute, GetProjectRoot(rt).parts + ["assets"])
  {
    SinglePart("assets");
  }
}
