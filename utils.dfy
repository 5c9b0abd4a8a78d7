/**
 * gmae/utils.py: the window-title record, the uniform-location record and the
 * environment-flag test.  `clamp`, which other modules import from this file,
 * is not part of it (see ProcessorUtils.ClampsToUnit).
 */
module Utils {
  import opened Wrappers

  /** Case folding of one character: ASCII capitals become small letters. */
  function FoldChar(c: char): char
  {
    if 'A' <= c <= 'Z' then (c as int + 32) as char else c
  }

  /** `str.casefold()`, restricted to ASCII letters. */
  function CaseFold(s: string): (r: string)
    ensures |r| == |s|
    ensures forall i :: 0 <= i < |s| ==> r[i] == FoldChar(s[i])
  {
    seq(|s|, i requires 0 <= i < |s| => FoldChar(s[i]))
  }

  /** Folding a folded string changes nothing more. */
  lemma CaseFoldIdempotent(s: string)
    ensures CaseFold(CaseFold(s)) == CaseFold(s)
  {
  }

  /** A string without capitals is its own folding. */
  lemma FoldedUnchanged(s: string)
    requires forall k :: 0 <= k < |s| ==> !('A' <= s[k] <= 'Z')
    ensures CaseFold(s) == s
  {
  }

  /** The values `env_means_true` accepts, after folding. */
  const TruthyValues: seq<string> := ["true", "1", "on"]

  /**
   * `env_means_true(name)`: `value` is what `getenv(name)` finds, None when the
   * variable is unset (in which case the default "" is folded and tested).
   */
  function EnvMeansTrue(value: Option<string>): (r: bool)
    ensures r <==> value.Some? && CaseFold(value.value) in TruthyValues
  {
    var raw := if value.Some? then value.value else "";
    CaseFold(raw) in TruthyValues
  }

  /** The test ignores case: a value and its folded form mean the same. */
  lemma EnvMeansTrueIgnoresCase(s: string)
    ensures EnvMeansTrue(Some(s)) == EnvMeansTrue(Some(CaseFold(s)))
  {
    CaseFoldIdempotent(s);
  }

  /** A few concrete answers: capitals are accepted, other words are not. */
  lemma EnvMeansTrueExamples()
    ensures EnvMeansTrue(Some("TRUE")) && EnvMeansTrue(Some("On")) && EnvMeansTrue(Some("1"))
    ensures !EnvMeansTrue(Some("yes")) && !EnvMeansTrue(Some("0")) && !EnvMeansTrue(Some(""))
    ensures !EnvMeansTrue(None)
  {
    assert CaseFold("TRUE") == "true";
    assert CaseFold("On") == "on";
    assert CaseFold("1") == "1";
  }

  /** `UniformLocations`: two required locations and an optional time location. */
  datatype UniformLocations = UniformLocations(sampler: int, resolution: int, time: Option<int>)

  /** The dataclass constructor called with only the required fields. */
  function NewUniformLocations(sampler: int, resolution: int): (u: UniformLocations)
    ensures u.sampler == sampler && u.resolution == resolution
    ensures u.time == None
  {
    UniformLocations(sampler, resolution, None)
  }

  /** What `full_title` appends while a shader compiles. */
  const CompilingSuffix: string := " (Compiling...)"

  /** The part of a GLFW window this model sees: its title. */
  class Window {
    var title: string

    constructor (title: string)
      ensures this.title == title
    {
      this.title := title;
    }
  }

  /** `TitleInfo`: the window name and whether a compile is in progress. */
  class TitleInfo {
    var name: string
    var isCompiling: bool

    /** `TitleInfo(name, is_compiling)`; the dataclass default for `is_compiling` is False. */
    constructor (name: string, isCompiling: bool := false)
      ensures this.name == name && this.isCompiling == isCompiling
    {
      this.name := name;
      this.isCompiling := isCompiling;
    }

    /** `full_title`: the name, followed by the compiling marker while compiling. */
    function FullTitle(): (r: string)
      reads this
      ensures name <= r
      ensures !isCompiling ==> r == name
      ensures isCompiling ==> r[|name|..] == CompilingSuffix
    {
      if isCompiling then name + CompilingSuffix else name
    }

    /**
     * `update(window, name, is_compiling)`: each argument that is not None
     * replaces its field, and the window then shows the new full title.
     */
    method Update(window: Window, name: Option<string>, isCompiling: Option<bool>)
      modifies this, window
      ensures this.name == (if name.Some? then name.value else old(this.name))
      ensures this.isCompiling == (if isCompiling.Some? then isCompiling.value else old(this.isCompiling))
      ensures window.title == FullTitle()
    {
      if name.Some? {
        this.name := name.value;
      }
      if isCompiling.Some? {
        this.isCompiling := isCompiling.value;
      }
      window.title := FullTitle();
    }
  }
}
