/** The concatenation file of one job (`prepare_catfile`, src/execute.rs:157-203):
    where it is written and what it holds. Creating and writing the file are
    I/O and become outcomes handed to the job trace (module Job). */
module Catfile {
  import opened Wrappers
  import opened Text
  import opened PlanModel

  const CatfileSuffix: string := ".catfile"

  /** The file name: the target leaf with every '.' turned into '_', then the
      `.catfile` suffix. */
  function CatfileName(leaf: string): (r: string)
    ensures |r| == |leaf| + |CatfileSuffix| && r[|leaf|..] == CatfileSuffix
    ensures '.' !in r[..|leaf|]
    ensures forall i :: 0 <= i < |leaf| ==> r[i] == (if leaf[i] == '.' then '_' else leaf[i])
  {
    ReplaceChar(leaf, '.', '_') + CatfileSuffix
  }

  /** `tmp_root.join(name)`. */
  function CatfilePath(tmpRoot: string, leaf: string): string
  {
    JoinPath(tmpRoot, CatfileName(leaf))
  }

  /** The name keeps everything of the leaf except dots: leaves without '_'
      map to distinct names. */
  lemma CatfileNameInjective(a: string, b: string)
    requires '_' !in a && '_' !in b
    ensures CatfileName(a) == CatfileName(b) <==> a == b
  {
    if CatfileName(a) == CatfileName(b) {
      assert |a| == |b|;
      forall i | 0 <= i < |a|
        ensures a[i] == b[i]
      {
        assert CatfileName(a)[i] == CatfileName(b)[i];
        assert ReplaceChar(a, '.', '_')[i] == CatfileName(a)[i];
        assert ReplaceChar(b, '.', '_')[i] == CatfileName(b)[i];
      }
    }
  }

  /** Two targets whose leaves differ only by '.' versus '_' share one
      concatenation file; since the file is created exclusively, the second
      job to create it fails with `CreateCatFile`. */
  lemma CatfileNamesCollide()
    ensures CatfileName("out.mp4") == CatfileName("out_mp4")
  {
    var a, b := ReplaceChar("out.mp4", '.', '_'), ReplaceChar("out_mp4", '.', '_');
    assert a == b by {
      forall i | 0 <= i < |a|
        ensures a[i] == b[i]
      {
      }
    }
  }

  /** For a leaf without separators the file sits directly in the temporary
      directory and is named by `CatfileName`. */
  lemma CatfilePathLastComponent(tmpRoot: string, leaf: string)
    requires Separator !in leaf
    ensures LastComponent(CatfilePath(tmpRoot, leaf)) == CatfileName(leaf)
  {
    var n := CatfileName(leaf);
    assert Separator !in n by {
      assert forall i :: 0 <= i < |n| ==> n[i] != Separator by {
        forall i | 0 <= i < |n|
          ensures n[i] != Separator
        {
          if i < |leaf| {
            assert n[i] == ReplaceChar(leaf, '.', '_')[i];
          } else {
            assert n[i] == CatfileSuffix[i - |leaf|];
          }
        }
      }
    }
    JoinPathLastComponent(tmpRoot, n);
  }

  /** One line of the file for one source path, quoted but not escaped. */
  function CatfileLine(path: string): string
  {
    "file '" + path + "'"
  }

  function CatfileLines(paths: seq<string>): seq<string>
  {
    seq(|paths|, i requires 0 <= i < |paths| => CatfileLine(paths[i]))
  }

  /** The whole file: the lines joined by line feeds, with no trailing one. */
  function CatfileContent(paths: seq<string>): string
  {
    JoinWith(CatfileLines(paths), "\n")
  }

  function SourcePathsOf(plan: Plan): seq<string>
  {
    seq(|plan.sources|, i requires 0 <= i < |plan.sources| => plan.sources[i].path)
  }

  // ---------------------------------------------------------------------
  // Reading the file back

  /** The path of one `file '<path>'` line, taken verbatim between the
      outermost quotes. */
  function ReadCatfileLine(line: string): Option<string>
  {
    if |line| >= 7 && line[..6] == "file '" && line[|line| - 1] == '\'' then Some(line[6..|line| - 1])
    else None
  }

  function ReadCatfileLines(lines: seq<string>): Option<seq<string>>
  {
    if |lines| == 0 then Some([])
    else
      match (ReadCatfileLines(lines[..|lines| - 1]), ReadCatfileLine(lines[|lines| - 1]))
      case (Some(ps), Some(p)) => Some(ps + [p])
      case _ => None
  }

  /** Splits the file into lines and reads each; an empty file lists nothing. */
  function ReadCatfile(content: string): Option<seq<string>>
  {
    if content == [] then Some([]) else ReadCatfileLines(SplitOn(content, '\n'))
  }

  lemma {:induction false} ReadCatfileLinesOf(paths: seq<string>)
    ensures ReadCatfileLines(CatfileLines(paths)) == Some(paths)
  {
    if |paths| > 0 {
      var n := |paths|;
      assert CatfileLines(paths)[..n - 1] == CatfileLines(paths[..n - 1]);
      ReadCatfileLinesOf(paths[..n - 1]);
      var l := CatfileLine(paths[n - 1]);
      assert l[..6] == "file '";
      assert l[6..|l| - 1] == paths[n - 1];
      assert paths[..n - 1] + [paths[n - 1]] == paths;
    }
  }

  /** As long as no source path contains a line feed, the file lists exactly
      the plan's source paths, in order. */
  lemma ReadCatfileContent(paths: seq<string>)
    requires forall i :: 0 <= i < |paths| ==> '\n' !in paths[i]
    ensures ReadCatfile(CatfileContent(paths)) == Some(paths)
  {
    var lines := CatfileLines(paths);
    ReadCatfileLinesOf(paths);
    if |paths| > 0 {
      forall i | 0 <= i < |lines|
        ensures '\n' !in lines[i]
      {
        assert lines[i] == "file '" + paths[i] + "'";
      }
      SplitOnJoin(lines, '\n');
      assert |lines[0]| > 0;
      assert CatfileContent(paths) != [] by {
        JoinWithNonEmpty(lines, "\n");
      }
    }
  }

  lemma JoinWithNonEmpty(parts: seq<string>, sep: string)
    requires |parts| > 0 && |parts[0]| > 0
    ensures |JoinWith(parts, sep)| > 0
  {
  }

  /** The concat demuxer's reading of a quoted token: inside single quotes every
      character is literal up to the next quote; outside, a quote opens a
      quoted run and a backslash escapes the next character. */
  function Unquote(s: string, quoted: bool): string
    decreases |s|
  {
    if |s| == 0 then []
    else if s[0] == '\'' then Unquote(s[1..], !quoted)
    else if !quoted && s[0] == '\\' && |s| >= 2 then [s[1]] + Unquote(s[2..], quoted)
    else [s[0]] + Unquote(s[1..], quoted)
  }

  lemma {:induction false} UnquoteLiteral(p: string)
    requires '\'' !in p
    ensures Unquote(p + "'", true) == p
    decreases |p|
  {
    if |p| == 0 {
      assert p + "'" == "'";
    } else {
      assert (p + "'")[1..] == p[1..] + "'";
      UnquoteLiteral(p[1..]);
      assert [p[0]] + p[1..] == p;
    }
  }

  /** Without a quote inside it, the path between the quotes of a line is read
      back exactly by the demuxer. */
  lemma CatfileLineUnquoted(path: string)
    requires '\'' !in path
    ensures var l := CatfileLine(path); Unquote(l[5..], false) == path
  {
    var l := CatfileLine(path);
    assert l[5..] == "'" + (path + "'");
    assert l[5..][1..] == path + "'";
    UnquoteLiteral(path);
  }

  /** Because nothing is escaped, a quote inside a path is consumed by the
      demuxer: the path `a'b` is read as `ab`. */
  lemma QuoteInPathIsLost()
    ensures CatfileLine("a'b")[5..] == "'a'b'"
    ensures Unquote("'a'b'", false) == "ab"
  {
  }
}
