/** `consolidate.py`: which entries of a source tree are copied into the
    code-context file. An entry is skipped when it is one of the fixed system
    folders or when a pattern of the ignore file matches its name or its
    relative path; of the files left, only Python sources are copied. */
module Consolidate {
  import opened Outcomes
  import opened Text

  /** The folders and files skipped whatever the ignore file says. */
  function SystemIgnores(): set<string>
  {
    {".venv", "venv", "env", ".git", "__pycache__", ".idea", ".vscode"}
  }

  /** `fnmatch.fnmatch` on a POSIX system: `*` matches any run of characters,
      `/` included, `?` any one character, and every other character itself.
      The whole text must be matched. */
  predicate Glob(p: string, s: string): (r: bool)
    ensures r && s == [] ==> forall i :: 0 <= i < |p| ==> p[i] == '*'
    decreases |p| + |s|
  {
    if p == [] then s == []
    else if p[0] == '*' then Glob(p[1..], s) || (s != [] && Glob(p, s[1..]))
    else if p[0] == '?' then s != [] && Glob(p[1..], s[1..])
    else s != [] && s[0] == p[0] && Glob(p[1..], s[1..])
  }

  /** A pattern without wildcards. */
  predicate Plain(p: string)
  {
    forall i :: 0 <= i < |p| ==> p[i] != '*' && p[i] != '?'
  }

  /** A plain pattern matches exactly itself. */
  lemma {:induction false} PlainGlob(p: string, s: string)
    requires Plain(p)
    ensures Glob(p, s) <==> s == p
  {
    if p != [] && s != [] {
      assert Plain(p[1..]) by {
        forall i | 0 <= i < |p[1..]| ensures p[1..][i] != '*' && p[1..][i] != '?' {
          assert p[1..][i] == p[i + 1];
        }
      }
      PlainGlob(p[1..], s[1..]);
      assert s == p <==> s[0] == p[0] && s[1..] == p[1..];
    }
  }

  /** `*` alone matches every text. */
  lemma {:induction false} StarMatchesAll(s: string)
    ensures Glob("*", s)
    decreases |s|
  {
    if s != [] {
      StarMatchesAll(s[1..]);
    }
  }

  /** A text ends with `t` when it is `t` or its tail ends with `t`. */
  lemma EndsWithStep(s: string, t: string)
    requires s != []
    ensures EndsWith(s, t) <==> s == t || EndsWith(s[1..], t)
  {
    if EndsWith(s, t) && s != t {
      assert |t| < |s|;
      assert s[1..][|s[1..]| - |t|..] == s[|s| - |t|..];
    }
    if EndsWith(s[1..], t) {
      assert s[1..][|s[1..]| - |t|..] == s[|s| - |t|..];
    }
  }

  /** `*` followed by a plain suffix, as in `*.log`, matches exactly the
      texts that end with that suffix. */
  lemma {:induction false} StarSuffixGlob(suffix: string, s: string)
    requires Plain(suffix)
    ensures Glob("*" + suffix, s) <==> EndsWith(s, suffix)
    decreases |s|
  {
    var p := "*" + suffix;
    assert p[0] == '*' && p[1..] == suffix;
    PlainGlob(suffix, s);
    if s == [] {
      assert Glob(p, s) <==> s == suffix;
    } else {
      StarSuffixGlob(suffix, s[1..]);
      EndsWithStep(s, suffix);
    }
  }

  /** A pattern with every trailing `/` removed: a folder pattern such as
      `build/` is matched as `build`. */
  function DirPattern(p: string): (r: string)
    ensures |r| <= |p| && r == p[..|r|]
    ensures forall i :: |r| <= i < |p| ==> p[i] == '/'
    ensures r == [] || r[|r| - 1] != '/'
  {
    if p != [] && p[|p| - 1] == '/' then
      var q := DirPattern(p[..|p| - 1]);
      assert p[..|p| - 1][..|q|] == p[..|q|];
      q
    else p
  }

  /** However many slashes a folder pattern ends with, it is the same
      pattern. */
  lemma DirPatternSlash(p: string)
    ensures DirPattern(p + "/") == DirPattern(p)
  {
    assert (p + "/")[..|p|] == p;
  }

  /** Every `sep` turned into `/`. */
  function Normalise(path: string, sep: char): (r: string)
    ensures |r| == |path|
    ensures forall i :: 0 <= i < |path| ==> r[i] == if path[i] == sep then '/' else path[i]
  {
    if path == [] then []
    else [if path[0] == sep then '/' else path[0]] + Normalise(path[1..], sep)
  }

  /** One ignore-file pattern against an entry's name and its normalised
      relative path. */
  predicate PatternHits(pattern: string, name: string, path: string)
  {
    Glob(DirPattern(pattern), name) || Glob(DirPattern(pattern), path)
  }

  /** An entry is ignored when it is a system name or some pattern hits it. */
  predicate Ignored(name: string, relativePath: string, sep: char, patterns: seq<string>)
  {
    name in SystemIgnores() ||
    exists i :: 0 <= i < |patterns| && PatternHits(patterns[i], name, Normalise(relativePath, sep))
  }

  /** `should_ignore`: the system names first, then the patterns in order,
      stopping at the first one that hits. The relative path is the one
      `os.path.relpath` gives and `sep` is the system's separator. */
  method ShouldIgnore(name: string, relativePath: string, sep: char, patterns: seq<string>)
    returns (r: bool)
    ensures r <==> Ignored(name, relativePath, sep, patterns)
  {
    if name in SystemIgnores() {
      return true;
    }
    var path := Normalise(relativePath, sep);
    var i := 0;
    while i < |patterns|
      invariant 0 <= i <= |patterns|
      invariant forall j :: 0 <= j < i ==> !PatternHits(patterns[j], name, path)
    {
      var pattern := DirPattern(patterns[i]);
      if Glob(pattern, name) || Glob(pattern, path) {
        return true;
      }
      i := i + 1;
    }
    return false;
  }

  /** With no patterns only the system names are ignored. */
  lemma NoPatternsOnlySystem(name: string, relativePath: string, sep: char)
    ensures Ignored(name, relativePath, sep, []) <==> name in SystemIgnores()
  {
  }

  /** A plain folder pattern such as `build/` ignores the entry of that name,
      a file as much as a folder. */
  lemma FolderPatternIgnoresName(dir: string, relativePath: string, sep: char, patterns: seq<string>)
    requires Plain(dir) && (dir == [] || dir[|dir| - 1] != '/')
    requires dir + "/" in patterns
    ensures Ignored(dir, relativePath, sep, patterns)
  {
    var i :| 0 <= i < |patterns| && patterns[i] == dir + "/";
    DirPatternSlash(dir);
    PlainGlob(dir, dir);
  }

  /** A pattern `*.ext` ignores every entry whose name ends with `.ext`. */
  lemma ExtensionPatternIgnores(ext: string, name: string, relativePath: string, sep: char, patterns: seq<string>)
    requires Plain(ext) && (ext == [] || ext[|ext| - 1] != '/')
    requires "*" + ext in patterns
    requires EndsWith(name, ext)
    ensures Ignored(name, relativePath, sep, patterns)
  {
    var i :| 0 <= i < |patterns| && patterns[i] == "*" + ext;
    var p := "*" + ext;
    assert p[|p| - 1] != '/' by {
      if ext == [] {
        assert p == "*";
      } else {
        assert p[|p| - 1] == ext[|ext| - 1];
      }
    }
    StarSuffixGlob(ext, name);
  }

  /** A line of the ignore file that is kept: not blank and not a comment
      once stripped. */
  predicate KeptLine(line: string)
  {
    Strip(line) != [] && !StartsWith(Strip(line), "#")
  }

  /** The patterns a list of lines gives: the kept lines, stripped, in order. */
  function Patterns(lines: seq<string>): (r: seq<string>)
    ensures |r| <= |lines|
    ensures forall i :: 0 <= i < |r| ==> r[i] != [] && !StartsWith(r[i], "#")
  {
    if lines == [] then []
    else if KeptLine(lines[0]) then [Strip(lines[0])] + Patterns(lines[1..])
    else Patterns(lines[1..])
  }

  /** The patterns of two runs of lines follow each other. */
  lemma {:induction false} PatternsAppend(a: seq<string>, b: seq<string>)
    ensures Patterns(a + b) == Patterns(a) + Patterns(b)
  {
    if a != [] {
      assert (a + b)[0] == a[0] && (a + b)[1..] == a[1..] + b;
      PatternsAppend(a[1..], b);
    } else {
      assert a + b == b;
    }
  }

  /** One more line read adds its pattern when it is kept. */
  lemma PatternsSnoc(lines: seq<string>, i: nat)
    requires i < |lines|
    ensures Patterns(lines[..i + 1]) ==
            Patterns(lines[..i]) + if KeptLine(lines[i]) then [Strip(lines[i])] else []
  {
    hide Strip;
    var x := lines[i];
    PatternsAppend(lines[..i], [x]);
    assert lines[..i + 1] == lines[..i] + [x];
    assert Patterns([x]) == if KeptLine(x) then [Strip(x)] else [] by {
      assert [x][0] == x && [x][1..] == [];
    }
  }

  /** Every kept line becomes a pattern, and every pattern is a kept line,
      stripped. */
  lemma {:induction false} PatternsAreKeptLines(lines: seq<string>, x: string)
    ensures x in Patterns(lines) <==> exists i :: 0 <= i < |lines| && KeptLine(lines[i]) && Strip(lines[i]) == x
  {
    if lines != [] {
      PatternsAreKeptLines(lines[1..], x);
      if x in Patterns(lines[1..]) {
        var i :| 0 <= i < |lines[1..]| && KeptLine(lines[1..][i]) && Strip(lines[1..][i]) == x;
        assert lines[i + 1] == lines[1..][i];
      }
      if exists i :: 0 <= i < |lines| && KeptLine(lines[i]) && Strip(lines[i]) == x {
        var i :| 0 <= i < |lines| && KeptLine(lines[i]) && Strip(lines[i]) == x;
        if i > 0 {
          assert lines[1..][i - 1] == lines[i];
        }
      }
    }
  }

  /** `load_gitignore_patterns`. The file is absent (`None`) or gives the
      lines read from it, up to its end or up to a read error: the patterns
      gathered before an error are kept. */
  method LoadGitignorePatterns(file: Option<seq<string>>) returns (patterns: seq<string>)
    ensures file.None? ==> patterns == []
    ensures file.Some? ==> patterns == Patterns(file.GetOr([]))
  {
    patterns := [];
    if file.Some? {
      hide Patterns, Strip, StartsWith;
      var lines := file.GetOr([]);
      var i := 0;
      while i < |lines|
        invariant 0 <= i <= |lines|
        invariant patterns == Patterns(lines[..i])
      {
        var line := Strip(lines[i]);
        PatternsSnoc(lines, i);
        assert KeptLine(lines[i]) <==> line != [] && !StartsWith(line, "#");
        if line != [] && !StartsWith(line, "#") {
          patterns := patterns + [line];
        }
        i := i + 1;
      }
      assert lines[..i] == lines;
    }
  }

  /** The name of the file the context is written to. */
  function OutputName(): string { "code_context.txt" }

  /** The file filter of `create_code_context`: a Python source that is not
      the output file. */
  predicate IsContextFile(filename: string)
  {
    EndsWith(filename, ".py") && filename != OutputName()
  }

  /** The output file does not end in `.py`, so the filter is exactly the
      Python sources. */
  lemma ContextFileIsPython(filename: string)
    ensures IsContextFile(filename) <==> EndsWith(filename, ".py")
  {
    if filename == OutputName() {
      assert filename[|filename| - 3..] == "txt";
    }
  }

  /** A file of a folder being walked: its name and its relative path. */
  datatype Entry = Entry(name: string, relativePath: string)

  /** The files of one folder that are copied, in order. */
  function Copied(files: seq<Entry>, sep: char, patterns: seq<string>): (r: seq<Entry>)
    ensures |r| <= |files|
    ensures forall e :: e in r <==> e in files && !Ignored(e.name, e.relativePath, sep, patterns) && IsContextFile(e.name)
  {
    if files == [] then []
    else
      var rest := Copied(files[1..], sep, patterns);
      var e := files[0];
      assert forall x :: x in files <==> x == e || x in files[1..];
      if !Ignored(e.name, e.relativePath, sep, patterns) && IsContextFile(e.name) then [e] + rest else rest
  }

  /** Copying one more file appends it when it is kept. */
  lemma {:induction false} CopiedSnoc(files: seq<Entry>, e: Entry, sep: char, patterns: seq<string>)
    ensures Copied(files + [e], sep, patterns) ==
            Copied(files, sep, patterns) +
            (if !Ignored(e.name, e.relativePath, sep, patterns) && IsContextFile(e.name) then [e] else [])
  {
    if files != [] {
      assert (files + [e])[1..] == files[1..] + [e];
      CopiedSnoc(files[1..], e, sep, patterns);
    }
  }

  /** The file loop of `create_code_context`: an ignored file is skipped,
      and of the others the Python sources are copied. */
  method SelectFiles(files: seq<Entry>, sep: char, patterns: seq<string>) returns (r: seq<Entry>)
    ensures r == Copied(files, sep, patterns)
  {
    r := [];
    for i := 0 to |files|
      invariant r == Copied(files[..i], sep, patterns)
    {
      var e := files[i];
      assert files[..i + 1] == files[..i] + [e];
      CopiedSnoc(files[..i], e, sep, patterns);
      var skip := ShouldIgnore(e.name, e.relativePath, sep, patterns);
      if skip {
        continue;
      }
      if IsContextFile(e.name) {
        r := r + [e];
      }
    }
    assert files[..|files|] == files;
  }
}
