/** The directory listing script (tree.py): the entries of a directory,
    minus those an ignore pattern matches, drawn with box-drawing connectors,
    directories descended into. The printed lines are returned in order. */
module Tree {
  import opened Wrappers
  import opened Text

  /** `print_tree`'s default ignore list. */
  const DEFAULT_IGNORE: seq<string> := [".git", "__pycache__", "*.pyc", ".idea", "venv"]

  const TEE := "├── "
  const ELBOW := "└── "
  const PIPE_INDENT := "│   "
  const BLANK_INDENT := "    "

  /** A directory entry: its name, its full path, and for a directory its
      entries in sorted order. */
  datatype Entry = Entry(name: string, path: string, isDir: bool, children: seq<Entry>)

  /** A pattern `*suffix` matches names ending in `suffix`; any other
      pattern matches entries whose full path contains it. */
  predicate Matches(pattern: string, e: Entry) {
    if |pattern| > 0 && pattern[0] == '*' then EndsWith(e.name, pattern[1..]) else Contains(e.path, pattern)
  }

  predicate Ignored(e: Entry, patterns: seq<string>) {
    exists k :: 0 <= k < |patterns| && Matches(patterns[k], e)
  }

  /** The entries no pattern matches, in order. */
  function Kept(entries: seq<Entry>, patterns: seq<string>): (r: seq<Entry>)
    ensures |r| <= |entries|
    ensures forall e :: e in r ==> e in entries
    decreases |entries|
  {
    if |entries| == 0 then []
    else
      var rest := Kept(entries[1..], patterns);
      if Ignored(entries[0], patterns) then rest else [entries[0]] + rest
  }

  /** Whether some pattern skips `e`: the inner loop, leaving at the first
      match. */
  method Skip(e: Entry, patterns: seq<string>) returns (skip: bool)
    ensures skip == Ignored(e, patterns)
  {
    skip := false;
    var k := 0;
    while k < |patterns|
      invariant 0 <= k <= |patterns|
      invariant !skip
      invariant forall j :: 0 <= j < k ==> !Matches(patterns[j], e)
    {
      var pattern := patterns[k];
      if StartsWith(pattern, "*") {
        if EndsWith(e.name, pattern[1..]) {
          skip := true;
          break;
        }
      } else if Contains(e.path, pattern) {
        skip := true;
        break;
      }
      k := k + 1;
    }
  }

  /** The filter loop. */
  method FilterEntries(entries: seq<Entry>, patterns: seq<string>) returns (filtered: seq<Entry>)
    ensures filtered == Kept(entries, patterns)
  {
    filtered := [];
    for i := 0 to |entries|
      invariant filtered + Kept(entries[i..], patterns) == Kept(entries, patterns)
    {
      assert entries[i..][1..] == entries[i + 1..];
      var skip := Skip(entries[i], patterns);
      if !skip {
        filtered := filtered + [entries[i]];
      }
    }
  }

  function Connector(isLast: bool): string {
    if isLast then ELBOW else TEE
  }

  function ChildPrefix(prefix: string, isLast: bool): string {
    prefix + (if isLast then BLANK_INDENT else PIPE_INDENT)
  }

  /** The lines of directory `dir` drawn under `prefix`. */
  function Render(dir: Entry, prefix: string, patterns: seq<string>): seq<string>
    decreases dir, 1, 0
  {
    Block(dir, Kept(dir.children, patterns), prefix, patterns)
  }

  /** The lines of the kept entries `es` of `dir`, the first of them
      drawn last when it is the only one left. */
  function Block(dir: Entry, es: seq<Entry>, prefix: string, patterns: seq<string>): seq<string>
    requires forall e :: e in es ==> e in dir.children
    decreases dir, 0, |es|
  {
    if |es| == 0 then []
    else
      var isLast := |es| == 1;
      assert es[0] in dir.children;
      [prefix + Connector(isLast) + es[0].name]
      + (if es[0].isDir then Render(es[0], ChildPrefix(prefix, isLast), patterns) else [])
      + Block(dir, es[1..], prefix, patterns)
  }

  /** `Block` from position `i` is the lines of entry `i` followed by
      `Block` from position `i + 1`. */
  lemma BlockStep(dir: Entry, es: seq<Entry>, i: nat, prefix: string, patterns: seq<string>)
    requires forall e :: e in es ==> e in dir.children
    requires i < |es|
    ensures Block(dir, es[i..], prefix, patterns) ==
      [prefix + Connector(i == |es| - 1) + es[i].name]
      + (if es[i].isDir then Render(es[i], ChildPrefix(prefix, i == |es| - 1), patterns) else [])
      + Block(dir, es[i + 1..], prefix, patterns)
  {
    assert es[i..][1..] == es[i + 1..];
  }

  /** `print_tree(directory, prefix, ignore_patterns)`; `None` patterns
      mean the default list. */
  method PrintTree(dir: Entry, prefix: string, ignorePatterns: Option<seq<string>>) returns (lines: seq<string>)
    ensures lines == Render(dir, prefix, if ignorePatterns.None? then DEFAULT_IGNORE else ignorePatterns.value)
  {
    var patterns := if ignorePatterns.None? then DEFAULT_IGNORE else ignorePatterns.value;
    lines := Draw(dir, prefix, patterns);
  }

  /** The body of `print_tree` once the patterns are known. */
  method Draw(dir: Entry, prefix: string, patterns: seq<string>) returns (lines: seq<string>)
    ensures lines == Render(dir, prefix, patterns)
    decreases dir, 1, 0
  {
    var filtered := FilterEntries(dir.children, patterns);
    assert forall e :: e in filtered ==> e in dir.children;
    lines := [];
    for i := 0 to |filtered|
      invariant lines + Block(dir, filtered[i..], prefix, patterns) == Render(dir, prefix, patterns)
    {
      var entry := filtered[i];
      assert entry in dir.children;
      var isLast := i == |filtered| - 1;
      var line := [prefix + Connector(isLast) + entry.name];
      if entry.isDir {
        var below := Draw(entry, ChildPrefix(prefix, isLast), patterns);
        line := line + below;
      }
      ghost var rest := Block(dir, filtered[i + 1..], prefix, patterns);
      BlockStep(dir, filtered, i, prefix, patterns);
      assert Block(dir, filtered[i..], prefix, patterns) == line + rest;
      assert (lines + line) + rest == lines + (line + rest);
      lines := lines + line;
    }
    assert filtered[|filtered|..] == [];
  }

  /** An entry is listed exactly when it is in the directory and no
      pattern matches it. */
  lemma {:induction false} KeptMembers(entries: seq<Entry>, patterns: seq<string>)
    ensures forall e :: e in Kept(entries, patterns) <==> e in entries && !Ignored(e, patterns)
    decreases |entries|
  {
    if |entries| > 0 {
      KeptMembers(entries[1..], patterns);
      assert entries == [entries[0]] + entries[1..];
    }
  }

  /** Filtering keeps the sorted order: it distributes over concatenation. */
  lemma {:induction false} KeptConcat(a: seq<Entry>, b: seq<Entry>, patterns: seq<string>)
    ensures Kept(a + b, patterns) == Kept(a, patterns) + Kept(b, patterns)
    decreases |a|
  {
    if |a| > 0 {
      assert (a + b)[1..] == a[1..] + b;
      KeptConcat(a[1..], b, patterns);
    } else {
      assert a + b == b;
    }
  }

  /** Filtering twice with the same patterns changes nothing. */
  lemma {:induction false} KeptIdempotent(entries: seq<Entry>, patterns: seq<string>)
    ensures Kept(Kept(entries, patterns), patterns) == Kept(entries, patterns)
    decreases |entries|
  {
    if |entries| > 0 {
      KeptIdempotent(entries[1..], patterns);
      var rest := Kept(entries[1..], patterns);
      if !Ignored(entries[0], patterns) {
        assert ([entries[0]] + rest)[1..] == rest;
      }
    }
  }

  /** A directory draws nothing exactly when every entry in it is ignored. */
  lemma RenderEmpty(dir: Entry, prefix: string, patterns: seq<string>)
    ensures Render(dir, prefix, patterns) == [] <==> forall e :: e in dir.children ==> Ignored(e, patterns)
  {
    KeptMembers(dir.children, patterns);
    var es := Kept(dir.children, patterns);
    if es != [] {
      assert es[0] in es;
    }
  }

  /** Every line drawn for a directory, at any depth, starts with the
      prefix it was drawn under. */
  lemma {:induction false} RenderPrefixed(dir: Entry, prefix: string, patterns: seq<string>)
    ensures forall line :: line in Render(dir, prefix, patterns) ==> StartsWith(line, prefix)
    decreases dir, 1, 0
  {
    BlockPrefixed(dir, Kept(dir.children, patterns), prefix, patterns);
  }

  lemma {:induction false} BlockPrefixed(dir: Entry, es: seq<Entry>, prefix: string, patterns: seq<string>)
    requires forall e :: e in es ==> e in dir.children
    ensures forall line :: line in Block(dir, es, prefix, patterns) ==> StartsWith(line, prefix)
    decreases dir, 0, |es|
  {
    if |es| > 0 {
      var isLast := |es| == 1;
      assert es[0] in dir.children;
      var head := prefix + Connector(isLast) + es[0].name;
      assert head[..|prefix|] == prefix;
      var below := if es[0].isDir then Render(es[0], ChildPrefix(prefix, isLast), patterns) else [];
      if es[0].isDir {
        RenderPrefixed(es[0], ChildPrefix(prefix, isLast), patterns);
        forall line | line in below ensures StartsWith(line, prefix) {
          assert line[..|prefix|] == ChildPrefix(prefix, isLast)[..|prefix|];
        }
      }
      BlockPrefixed(dir, es[1..], prefix, patterns);
      assert Block(dir, es, prefix, patterns) == [head] + below + Block(dir, es[1..], prefix, patterns);
    }
  }

  /** The kept entries each draw one line at the directory's own level, so
      the lines a directory draws are at least as many as the entries it
      keeps; a directory of plain files draws exactly those. */
  lemma {:induction false} BlockLength(dir: Entry, es: seq<Entry>, prefix: string, patterns: seq<string>)
    requires forall e :: e in es ==> e in dir.children
    ensures |Block(dir, es, prefix, patterns)| >= |es|
    ensures (forall e :: e in es ==> !e.isDir) ==> |Block(dir, es, prefix, patterns)| == |es|
    decreases |es|
  {
    if |es| > 0 {
      BlockLength(dir, es[1..], prefix, patterns);
      assert es[0] in es;
      assert forall e :: e in es[1..] ==> e in es;
    }
  }

  /** A `needle` found at some offset of `s` is contained in it. */
  lemma {:induction false} ContainsAt(s: string, needle: string, k: nat)
    requires k <= |s| && StartsWith(s[k..], needle)
    ensures Contains(s, needle)
    decreases k
  {
    if k > 0 {
      assert s[1..][k - 1..] == s[k..];
      ContainsAt(s[1..], needle, k - 1);
    } else {
      assert s[0..] == s;
    }
  }

  /** A path that extends a path containing `needle` contains it too. */
  lemma {:induction false} ContainsExtends(root: string, path: string, needle: string)
    requires StartsWith(path, root) && Contains(root, needle)
    ensures Contains(path, needle)
    decreases |root|
  {
    if !StartsWith(root, needle) {
      assert path[1..][..|root| - 1] == root[1..];
      ContainsExtends(root[1..], path[1..], needle);
    }
  }

  /** The `.git` pattern is a substring test on the full path, so the
      default list also hides `.gitignore`, `.github` and any other entry
      whose name begins with `.git`. */
  lemma DefaultHidesGitPrefixed(e: Entry)
    requires StartsWith(e.name, ".git") && EndsWith(e.path, e.name)
    ensures Ignored(e, DEFAULT_IGNORE)
  {
    var k := |e.path| - |e.name|;
    assert e.path[k..][..4] == e.name[..4];
    ContainsAt(e.path, ".git", k);
    assert Matches(DEFAULT_IGNORE[0], e);
  }

  /** Drawn from inside a directory whose path contains `venv` (a project
      kept under a virtualenv folder, say), the default list hides every
      entry and nothing is drawn. */
  lemma UnderVenvDrawsNothing(dir: Entry, prefix: string)
    requires Contains(dir.path, "venv")
    requires forall e :: e in dir.children ==> StartsWith(e.path, dir.path)
    ensures Render(dir, prefix, DEFAULT_IGNORE) == []
  {
    forall e | e in dir.children ensures Ignored(e, DEFAULT_IGNORE) {
      ContainsExtends(dir.path, e.path, "venv");
      assert Matches(DEFAULT_IGNORE[4], e);
    }
    RenderEmpty(dir, prefix, DEFAULT_IGNORE);
  }
}
