/** The optimization annotator: puts a header of comments and preprocessor
    directives, chosen by the optimization level, in front of the C code. */
module Optimizer {
  import opened Wrappers
  import opened Strings

  /** Rust's `u8`. */
  newtype u8 = x: int | 0 <= x < 256

  datatype OptimizerError = OptimizerError(message: string)

  /** A header line, by what it is; `Render` gives its exact text. */
  datatype Line =
    | Comment(text: string)
    | Define(name: string, value: string)
    | Include(header: string)
    | IfDef(feature: string)
    | EndIf

  function Render(line: Line): string {
    match line
    case Comment(text) => "// " + text
    case Define(name, value) => "#define " + name + " " + value
    case Include(header) => "#include <" + header + ">"
    case IfDef(feature) => "#ifdef " + feature
    case EndIf => "#endif"
  }

  function RenderAll(lines: seq<Line>): (r: seq<string>)
    ensures |r| == |lines| && forall i :: 0 <= i < |lines| ==> r[i] == Render(lines[i])
    decreases lines
  {
    if |lines| == 0 then [] else [Render(lines[0])] + RenderAll(lines[1..])
  }

  /** The branch prediction macros; the spacing lines the two bodies up. */
  const Likely := Define("likely(x)", "  __builtin_expect(!!(x), 1)")
  const Unlikely := Define("unlikely(x)", "__builtin_expect(!!(x), 0)")
  const Hints := [Likely, Unlikely]

  /** The level's value for `Z_OPT_LEVEL`. */
  function LevelDefine(value: string): Line {
    Define("Z_OPT_LEVEL", value)
  }

  /** An include and a flag enabled only when the compiler defines `feature`. */
  function FeatureTest(feature: string, header: string, flag: string): seq<Line> {
    [IfDef(feature), Include(header), Define(flag, "1"), EndIf]
  }

  /** The directive lines for each level; every level from 3 up gets the level 3 set. */
  function LevelLines(level: u8): seq<Line> {
    if level == 0 then
      [Comment("- No optimizations")]
    else if level == 1 then
      [Comment("- Basic loop optimizations"),
       Comment("- Simple function inlining")]
      + [LevelDefine("1")]
    else if level == 2 then
      [Comment("- Aggressive loop optimizations"),
       Comment("- Function inlining"),
       Comment("- Memory access optimizations")]
      + [LevelDefine("2")] + Hints
    else
      [Comment("- Maximum optimizations"),
       Comment("- Aggressive inlining"),
       Comment("- SIMD vectorization"),
       Comment("- Cache optimization"),
       Comment("- Branch prediction")]
      + [LevelDefine("3")] + Hints
      + FeatureTest("__SSE__", "immintrin.h", "Z_HAS_SIMD")
      + FeatureTest("_OPENMP", "omp.h", "Z_HAS_PARALLEL")
  }

  /** The header: the level as given, even above 3, then the level's directives. */
  function HeaderLines(level: u8): seq<Line> {
    [Comment("Z Language code with optimization level " + NatString(level as nat)),
     Comment("Optimizations applied:")]
    + LevelLines(level)
  }

  /** The annotated code: the header, an empty line, then the code unchanged. */
  function Optimize(code: string, level: u8): (r: Result<string, OptimizerError>)
    ensures r.Ok?
  {
    Ok(Unlines(RenderAll(HeaderLines(level))) + "\n" + code)
  }

  /** The code comes out unchanged at the end, after the header and an empty line. */
  lemma OptimizeKeepsCode(code: string, level: u8)
    ensures var out := Optimize(code, level).value;
      var head := Unlines(RenderAll(HeaderLines(level))) + "\n";
      |out| == |head| + |code| && out[..|head|] == head && out[|head|..] == code
  {
  }

  /** The first line names the level as given; it reads back as that number. */
  lemma HeaderNamesLevel(level: u8)
    ensures var lines := HeaderLines(level);
      |lines| >= 3
      && lines[0] == Comment("Z Language code with optimization level " + NatString(level as nat))
      && lines[1] == Comment("Optimizations applied:")
      && ParseNat(NatString(level as nat)) == level as nat
  {
    ParseNatString(level as nat);
  }

  /** Level 0 only says that nothing is applied: every line is a comment. */
  lemma LevelZeroPlain()
    ensures LevelLines(0) == [Comment("- No optimizations")]
    ensures forall line | line in HeaderLines(0) :: line.Comment?
  {
  }

  /** Every level from 3 up emits the same lines as level 3 after the first,
      and the first tells the levels apart. */
  lemma HighLevelsAlike(a: u8, b: u8)
    requires a >= 3 && b >= 3
    ensures HeaderLines(a)[1..] == HeaderLines(b)[1..]
    ensures HeaderLines(a)[0] == HeaderLines(b)[0] <==> a == b
  {
    assert HeaderLines(a)[1..] == [Comment("Optimizations applied:")] + LevelLines(a);
    assert HeaderLines(b)[1..] == [Comment("Optimizations applied:")] + LevelLines(b);
    if HeaderLines(a)[0] == HeaderLines(b)[0] {
      var p := "Z Language code with optimization level ";
      var ta := p + NatString(a as nat);
      var tb := p + NatString(b as nat);
      assert ta == tb;
      assert ta[|p|..] == NatString(a as nat);
      assert tb[|p|..] == NatString(b as nat);
      ParseNatString(a as nat);
      ParseNatString(b as nat);
    }
  }

  /** The values given to `name` by the lines' `#define`s, in order. */
  function DefinedValues(lines: seq<Line>, name: string): (r: seq<string>)
    ensures |r| <= |lines|
    decreases lines
  {
    if |lines| == 0 then []
    else (if lines[0].Define? && lines[0].name == name then [lines[0].value] else [])
         + DefinedValues(lines[1..], name)
  }

  /** Whether every `#include` sits between an `#ifdef` and its `#endif`, with
      no nesting, `inside` telling whether a test is open. */
  predicate Guarded(lines: seq<Line>, inside: bool)
    decreases lines
  {
    if |lines| == 0 then !inside
    else match lines[0]
      case IfDef(_) => !inside && Guarded(lines[1..], true)
      case EndIf => inside && Guarded(lines[1..], false)
      case Include(_) => inside && Guarded(lines[1..], inside)
      case _ => Guarded(lines[1..], inside)
  }

  /** The headers the lines include, in order. */
  function Includes(lines: seq<Line>): (r: seq<string>)
    ensures |r| <= |lines|
    decreases lines
  {
    if |lines| == 0 then []
    else (if lines[0].Include? then [lines[0].header] else []) + Includes(lines[1..])
  }

  /** The headers the lines include, in order, each paired with the feature of
      the `#ifdef` open around it (`feature` before the first line, "" once an
      `#endif` closes a test). */
  function IncludeGuards(lines: seq<Line>, feature: string): (r: seq<(string, string)>)
    ensures |r| <= |lines|
    decreases lines
  {
    if |lines| == 0 then []
    else match lines[0]
      case IfDef(f) => IncludeGuards(lines[1..], f)
      case EndIf => IncludeGuards(lines[1..], "")
      case Include(h) => [(feature, h)] + IncludeGuards(lines[1..], feature)
      case _ => IncludeGuards(lines[1..], feature)
  }

  lemma {:induction false} DefinedValuesAppend(a: seq<Line>, b: seq<Line>, name: string)
    ensures DefinedValues(a + b, name) == DefinedValues(a, name) + DefinedValues(b, name)
    decreases |a|
  {
    if a == [] {
      assert a + b == b;
    } else {
      assert (a + b)[0] == a[0] && (a + b)[1..] == a[1..] + b;
      DefinedValuesAppend(a[1..], b, name);
    }
  }

  lemma {:induction false} IncludesAppend(a: seq<Line>, b: seq<Line>)
    ensures Includes(a + b) == Includes(a) + Includes(b)
    decreases |a|
  {
    if a == [] {
      assert a + b == b;
    } else {
      assert (a + b)[0] == a[0] && (a + b)[1..] == a[1..] + b;
      IncludesAppend(a[1..], b);
    }
  }

  lemma {:induction false} GuardedAppend(a: seq<Line>, b: seq<Line>, inside: bool)
    requires Guarded(a, inside) && Guarded(b, false)
    ensures Guarded(a + b, inside)
    decreases |a|
  {
    if a == [] {
      assert a + b == b;
    } else {
      assert (a + b)[0] == a[0] && (a + b)[1..] == a[1..] + b;
      GuardedAppend(a[1..], b, if a[0].IfDef? then true else if a[0].EndIf? then false else inside);
    }
  }

  /** All three measures of `a + b` from those of `a` and `b`. */
  lemma AppendLines(a: seq<Line>, b: seq<Line>)
    requires Guarded(a, false) && Guarded(b, false)
    ensures DefinedValues(a + b, "Z_OPT_LEVEL") == DefinedValues(a, "Z_OPT_LEVEL") + DefinedValues(b, "Z_OPT_LEVEL")
    ensures Includes(a + b) == Includes(a) + Includes(b)
    ensures Guarded(a + b, false)
  {
    DefinedValuesAppend(a, b, "Z_OPT_LEVEL");
    IncludesAppend(a, b);
    GuardedAppend(a, b, false);
  }

  /** Comments define nothing, include nothing and leave the guard as it was. */
  lemma {:induction false} CommentLines(lines: seq<Line>, name: string)
    requires forall i | 0 <= i < |lines| :: lines[i].Comment?
    ensures DefinedValues(lines, name) == [] && Includes(lines) == [] && Guarded(lines, false)
    decreases |lines|
  {
    if lines != [] {
      CommentLines(lines[1..], name);
    }
  }

  /** Comments and defines in front change neither the includes nor the open feature. */
  lemma {:induction false} PlainGuards(a: seq<Line>, b: seq<Line>, feature: string)
    requires forall i | 0 <= i < |a| :: a[i].Comment? || a[i].Define?
    ensures IncludeGuards(a + b, feature) == IncludeGuards(b, feature)
    decreases |a|
  {
    if a == [] {
      assert a + b == b;
    } else {
      assert (a + b)[0] == a[0] && (a + b)[1..] == a[1..] + b;
      PlainGuards(a[1..], b, feature);
    }
  }

  /** A feature test includes its header under its own feature and closes it. */
  lemma FeatureTestGuards(feature: string, header: string, flag: string, b: seq<Line>, outer: string)
    ensures IncludeGuards(FeatureTest(feature, header, flag) + b, outer) == [(feature, header)] + IncludeGuards(b, "")
  {
    var t := FeatureTest(feature, header, flag) + b;
    assert t[0] == IfDef(feature) && t[1..][0] == Include(header);
    assert t[1..][1..] == t[2..] && t[2..][0] == Define(flag, "1");
    assert t[2..][1..] == t[3..] && t[3..][0] == EndIf && t[3..][1..] == b;
    assert IncludeGuards(t[3..], feature) == IncludeGuards(b, "");
    assert IncludeGuards(t[2..], feature) == IncludeGuards(b, "");
    assert IncludeGuards(t[1..], feature) == [(feature, header)] + IncludeGuards(b, "");
  }

  lemma FeatureTestLines(feature: string, header: string, flag: string, name: string)
    requires flag != name
    ensures var t := FeatureTest(feature, header, flag);
      DefinedValues(t, name) == [] && Includes(t) == [header] && Guarded(t, false)
  {
    var t := FeatureTest(feature, header, flag);
    assert t[3..][1..] == [] && t[2..][1..] == t[3..] && t[1..][1..] == t[2..];
    assert DefinedValues(t[3..], name) == [] && Includes(t[3..]) == [] && Guarded(t[3..], true);
    assert DefinedValues(t[2..], name) == [] && Includes(t[2..]) == [] && Guarded(t[2..], true);
    assert DefinedValues(t[1..], name) == [] && Includes(t[1..]) == [header] && Guarded(t[1..], true);
  }

  lemma HintLines()
    ensures DefinedValues(Hints, "Z_OPT_LEVEL") == [] && Includes(Hints) == [] && Guarded(Hints, false)
  {
    assert Hints[1..][1..] == [];
  }

  lemma DefineLine(value: string)
    ensures var d := [LevelDefine(value)];
      DefinedValues(d, "Z_OPT_LEVEL") == [value] && Includes(d) == [] && Guarded(d, false)
  {
    assert [LevelDefine(value)][1..] == [];
  }

  /** `Z_OPT_LEVEL` is defined once, as the level capped at 3, at every level
      but 0; system headers are included from level 3 up only, and only inside
      a feature test closed by its `#endif`: `immintrin.h` under `__SSE__`,
      then `omp.h` under `_OPENMP`. */
  predicate DirectivesAsSpecified(level: u8) {
    DefinedValues(LevelLines(level), "Z_OPT_LEVEL") ==
      (if level == 0 then [] else if level == 1 then ["1"] else if level == 2 then ["2"] else ["3"])
    && Guarded(LevelLines(level), false)
    && Includes(LevelLines(level)) == (if level >= 3 then ["immintrin.h", "omp.h"] else [])
    && IncludeGuards(LevelLines(level), "") ==
      (if level >= 3 then [("__SSE__", "immintrin.h"), ("_OPENMP", "omp.h")] else [])
  }

  lemma LevelDirectives(level: u8)
    ensures DirectivesAsSpecified(level)
  {
    if level == 0 {
      CommentLines(LevelLines(0), "Z_OPT_LEVEL");
      assert LevelLines(0) + [] == LevelLines(0);
      PlainGuards(LevelLines(0), [], "");
    } else if level == 1 {
      LevelOneDirectives(level);
    } else if level == 2 {
      LevelTwoDirectives(level);
    } else {
      HighLevelDirectives(level);
    }
  }

  /** Comments, then the level's `#define`, then lines that define no level. */
  lemma LevelGroup(c: seq<Line>, value: string, tail: seq<Line>)
    requires forall i | 0 <= i < |c| :: c[i].Comment?
    requires DefinedValues(tail, "Z_OPT_LEVEL") == [] && Guarded(tail, false)
    ensures var lines := c + [LevelDefine(value)] + tail;
      DefinedValues(lines, "Z_OPT_LEVEL") == [value] && Guarded(lines, false)
      && Includes(lines) == Includes(tail) && IncludeGuards(lines, "") == IncludeGuards(tail, "")
  {
    CommentLines(c, "Z_OPT_LEVEL");
    DefineLine(value);
    AppendLines(c, [LevelDefine(value)]);
    AppendLines(c + [LevelDefine(value)], tail);
    PlainGuards(c + [LevelDefine(value)], tail, "");
  }

  lemma LevelOneDirectives(level: u8)
    requires level == 1
    ensures DirectivesAsSpecified(level)
  {
    var c := [Comment("- Basic loop optimizations"), Comment("- Simple function inlining")];
    assert LevelLines(level) == c + [LevelDefine("1")] + [];
    LevelGroup(c, "1", []);
  }

  lemma LevelTwoDirectives(level: u8)
    requires level == 2
    ensures DirectivesAsSpecified(level)
  {
    var c := [Comment("- Aggressive loop optimizations"), Comment("- Function inlining"),
              Comment("- Memory access optimizations")];
    HintLines();
    assert Hints + [] == Hints;
    PlainGuards(Hints, [], "");
    LevelGroup(c, "2", Hints);
  }

  /** The hints and two feature tests define no level and include the two headers, guarded. */
  lemma FeatureTail(f1: string, h1: string, flag1: string, f2: string, h2: string, flag2: string)
    requires flag1 != "Z_OPT_LEVEL" && flag2 != "Z_OPT_LEVEL"
    ensures var tail := Hints + FeatureTest(f1, h1, flag1) + FeatureTest(f2, h2, flag2);
      DefinedValues(tail, "Z_OPT_LEVEL") == [] && Guarded(tail, false) && Includes(tail) == [h1, h2]
      && IncludeGuards(tail, "") == [(f1, h1), (f2, h2)]
  {
    var t1 := FeatureTest(f1, h1, flag1);
    var t2 := FeatureTest(f2, h2, flag2);
    HintLines();
    FeatureTestLines(f1, h1, flag1, "Z_OPT_LEVEL");
    FeatureTestLines(f2, h2, flag2, "Z_OPT_LEVEL");
    AppendLines(Hints, t1);
    AppendLines(Hints + t1, t2);
    FeatureTestGuards(f2, h2, flag2, [], "");
    assert t2 + [] == t2;
    FeatureTestGuards(f1, h1, flag1, t2, "");
    PlainGuards(Hints, t1 + t2, "");
    assert Hints + t1 + t2 == Hints + (t1 + t2);
  }

  lemma HighLevelDirectives(level: u8)
    requires level >= 3
    ensures DirectivesAsSpecified(level)
  {
    var c := [Comment("- Maximum optimizations"), Comment("- Aggressive inlining"),
              Comment("- SIMD vectorization"), Comment("- Cache optimization"),
              Comment("- Branch prediction")];
    var tail := Hints + FeatureTest("__SSE__", "immintrin.h", "Z_HAS_SIMD")
                + FeatureTest("_OPENMP", "omp.h", "Z_HAS_PARALLEL");
    FeatureTail("__SSE__", "immintrin.h", "Z_HAS_SIMD", "_OPENMP", "omp.h", "Z_HAS_PARALLEL");
    LevelGroup(c, "3", tail);
    assert LevelLines(level) == c + [LevelDefine("3")] + tail;
  }

  /** The branch prediction macros appear exactly from level 2 up. */
  lemma BranchHints(level: u8)
    ensures Likely in HeaderLines(level) <==> level >= 2
    ensures Unlikely in HeaderLines(level) <==> level >= 2
  {
    var lines := HeaderLines(level);
    if level >= 2 {
      var k := if level == 2 then 6 else 8;
      assert lines[k] == Likely && lines[k + 1] == Unlikely;
    }
  }
}
