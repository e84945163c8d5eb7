/** The immutable values the spec compiler produces and every job consumes:
    `PlanPath`, `Plan` and the per-plan `Flag` (src/parse.rs:16-40), plus the
    Unix path joining the program relies on (`PathBuf::join`). */
module PlanModel {
  import opened Text

  /** `std::path::MAIN_SEPARATOR` on Unix. */
  const Separator: char := '/'

  /** A name as written in the spec (`leaf`) and that name placed under a base
      directory (`path`). */
  datatype PlanPath = PlanPath(path: string, leaf: string)

  /** Per-plan encode options. Only the variant the executor tests for is known. */
  datatype Flag = ConcatFilter

  /** One output target and its ordered input sources. */
  datatype Plan = Plan(target: PlanPath, sources: seq<PlanPath>, flags: seq<Flag>)

  /** `PlanPath::new_relative_to`: the directory text, one separator, then the
      name verbatim; the leaf is the name itself. */
  function NewRelativeTo(from: string, relativeTo: string): PlanPath
  {
    PlanPath(relativeTo + [Separator] + from, from)
  }

  /** The path of a `new_relative_to` value determines its leaf and vice versa:
      under one directory, two names give the same path exactly when they are
      the same name, and the leaf is what follows the directory and separator. */
  lemma NewRelativeToInjective(a: string, b: string, dir: string)
    ensures NewRelativeTo(a, dir).path == NewRelativeTo(b, dir).path <==> a == b
    ensures NewRelativeTo(a, dir).path[|dir| + 1..] == NewRelativeTo(a, dir).leaf
  {
    var pa := NewRelativeTo(a, dir).path;
    var pb := NewRelativeTo(b, dir).path;
    assert pa[|dir| + 1..] == a;
    assert pb[|dir| + 1..] == b;
  }

  /** Whether the executor was asked for the filter-graph strategy
      (`flags.iter().any(|flag| flag == Flag::ConcatFilter)`). */
  predicate UsesConcatFilter(flags: seq<Flag>) {
    ConcatFilter in flags
  }

  /** `PathBuf::join` on Unix: an absolute component replaces the base; otherwise
      a separator is inserted only when the base is non-empty and does not
      already end in one. */
  function JoinPath(base: string, component: string): string
  {
    if |component| > 0 && component[0] == Separator then component
    else if |base| > 0 && base[|base| - 1] != Separator then base + [Separator] + component
    else base + component
  }

  /** The text after the last separator of a path. */
  function LastComponent(p: string): string
  {
    if |p| == 0 || p[|p| - 1] == Separator then [] else LastComponent(p[..|p| - 1]) + [p[|p| - 1]]
  }

  lemma {:induction false} LastComponentAfterSeparator(prefix: string, name: string)
    requires Separator !in name
    requires |prefix| == 0 || prefix[|prefix| - 1] == Separator
    ensures LastComponent(prefix + name) == name
    decreases |name|
  {
    if |name| > 0 {
      var p := prefix + name;
      assert p[..|p| - 1] == prefix + name[..|name| - 1];
      LastComponentAfterSeparator(prefix, name[..|name| - 1]);
      assert name[..|name| - 1] + [name[|name| - 1]] == name;
    } else {
      assert prefix + name == prefix;
    }
  }

  /** Joining a separator-free name onto any base yields a path whose last
      component is exactly that name. */
  lemma JoinPathLastComponent(base: string, name: string)
    requires |name| > 0 && Separator !in name
    ensures LastComponent(JoinPath(base, name)) == name
  {
    if |base| > 0 && base[|base| - 1] != Separator {
      assert base + [Separator] + name == (base + [Separator]) + name;
      LastComponentAfterSeparator(base + [Separator], name);
    } else {
      LastComponentAfterSeparator(base, name);
    }
  }
}
