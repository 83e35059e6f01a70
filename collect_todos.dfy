/** The TODO extractor (scripts/collect_todos.rs): a recursive walk over a directory tree
    that reads every Rust source file line by line and reports each line holding "TODO",
    then the report's output lines. The file system is an in-memory tree whose every read
    may fail. */
module Todos {
  import opened Wrappers
  import opened Strings
  import opened Decimal

  // ---------------------------------------------------------------------------
  // Paths

  /** A path component as `Path::components` yields it for the paths the walk builds. */
  datatype Component = CurDir | Normal(name: string)

  type Path = seq<Component>

  function ComponentText(c: Component): string {
    match c
    case CurDir => "."
    case Normal(n) => n
  }

  /** `path.display()` (and `to_string_lossy()`): the components joined by '/'. */
  function Display(p: Path): string
    decreases |p|
  {
    if p == [] then ""
    else if |p| == 1 then ComponentText(p[0])
    else Display(p[..|p| - 1]) + "/" + ComponentText(p[|p| - 1])
  }

  /** A displayed path ends with its last component. */
  lemma DisplayEndsWithLast(p: Path)
    requires p != []
    ensures EndsWith(Display(p), ComponentText(p[|p| - 1]))
  {
    var last := ComponentText(p[|p| - 1]);
    if |p| > 1 {
      var front := Display(p[..|p| - 1]) + "/";
      assert Display(p) == front + last;
      assert (front + last)[|front|..] == last;
    }
  }

  /** `dir.join(name)` displays as `dir`, '/', `name`. */
  lemma DisplayJoin(dir: Path, name: string)
    requires dir != []
    ensures Display(dir + [Normal(name)]) == Display(dir) + "/" + name
  {
    assert (dir + [Normal(name)])[..|dir|] == dir;
  }

  /** The position of the last '.' in `s`. */
  function LastDot(s: string): (i: Option<nat>)
    ensures i.Some? ==> i.value < |s| && s[i.value] == '.' && forall k :: i.value < k < |s| ==> s[k] != '.'
    ensures i.None? ==> forall k :: 0 <= k < |s| ==> s[k] != '.'
    decreases |s|
  {
    if s == [] then None
    else if s[|s| - 1] == '.' then Some(|s| - 1)
    else LastDot(s[..|s| - 1])
  }

  /** `Path::extension` of a file name: what follows the last '.', unless there is none or
      the only one starts the name. */
  function Extension(name: string): Option<string> {
    match LastDot(name)
    case None => None
    case Some(i) => if i == 0 then None else Some(name[i + 1..])
  }

  /** A name has extension "rs" exactly when it is longer than ".rs" and ends with it. */
  lemma ExtensionIsRs(name: string)
    ensures Extension(name) == Some("rs") <==> |name| > 3 && EndsWith(name, ".rs")
  {
    if |name| > 3 && EndsWith(name, ".rs") {
      var i := LastDot(name);
      assert name[|name| - 3] == '.';
      assert i.Some? && i.value >= |name| - 3;
      assert name[|name| - 2] == 'r' && name[|name| - 1] == 's';
      assert i.value == |name| - 3;
      assert name[|name| - 3..] == name[|name| - 3..|name|] == ".rs";
      assert name[i.value + 1..] == name[|name| - 3..][1..] == "rs";
      assert Extension(name) == Some(name[i.value + 1..]);
    }
    if Extension(name) == Some("rs") {
      var i := LastDot(name).value;
      assert name[i + 1..] == "rs";
      assert |name| == i + 3;
      assert name[|name| - 3..] == [name[i]] + name[i + 1..];
    }
  }

  /** `Path::starts_with`: a component-wise prefix. */
  predicate StartsWithPath(p: Path, prefix: Path) {
    |prefix| <= |p| && p[..|prefix|] == prefix
  }

  /** `is_cargo_dependency` as written: the path starts with the component "target". */
  predicate IsCargoDependencyAsWritten(p: Path) {
    StartsWithPath(p, [Normal("target")])
  }

  /** Every path the walk builds from the project root "." starts with the `CurDir`
      component, so the test as written never holds and `./target` is descended. */
  lemma AsWrittenNeverPrunes(rest: Path)
    ensures !IsCargoDependencyAsWritten([CurDir] + rest)
    ensures !IsCargoDependencyAsWritten([CurDir, Normal("target")])
  {
  }

  function StripCurDir(p: Path): (q: Path)
    ensures |q| <= |p| && q == p[|p| - |q|..]
    ensures forall k :: 0 <= k < |p| - |q| ==> p[k].CurDir?
    ensures q == [] || !q[0].CurDir?
    decreases |p|
  {
    if p != [] && p[0].CurDir? then StripCurDir(p[1..]) else p
  }

  /** `is_cargo_dependency` corrected: "target" is the first component after any leading
      ".". */
  predicate IsCargoDependency(p: Path) {
    StartsWithPath(StripCurDir(p), [Normal("target")])
  }

  /** Below the root ".", the corrected test holds exactly for `./target` and what lies
      under it. */
  lemma CargoDependencyUnderRoot(rest: Path)
    requires rest == [] || !rest[0].CurDir?
    ensures IsCargoDependency([CurDir] + rest) <==> |rest| > 0 && rest[0] == Normal("target")
  {
    assert ([CurDir] + rest)[1..] == rest;
    assert StripCurDir([CurDir] + rest) == StripCurDir(rest);
    assert StripCurDir(rest) == rest;
  }

  /** Which `is_cargo_dependency` the walk applies: the one the script ships, or the
      corrected one. */
  datatype Pruning = AsWritten | Corrected

  predicate Prunes(test: Pruning, p: Path) {
    match test
    case AsWritten => IsCargoDependencyAsWritten(p)
    case Corrected => IsCargoDependency(p)
  }

  // ---------------------------------------------------------------------------
  // The file system

  /** What reading one directory entry yields: a file with its lines (opening it may fail,
      and so may reading each line), a directory with its listing, anything else, or the
      error of reading the entry. */
  datatype Entry =
    | FileEntry(name: string, content: Lines)
    | DirEntry(name: string, listing: Listing)
    | OtherEntry(name: string)
    | EntryError(error: Report)

  /** What `read_dir` yields: the entries, or the error of opening the directory. */
  datatype Listing = Entries(entries: seq<Entry>) | ListingError(error: Report)

  type Lines = Result<seq<Result<string, Report>>, Report>

  /** A reported TODO: the entry text and the file's path. */
  type Todo = (string, string)

  const MARKER: string := "TODO"
  const SCRIPT_FILE: string := "collect_todos.rs"

  // ---------------------------------------------------------------------------
  // One file

  /** The line holds "TODO" (`Find` states that this means some occurrence exists). */
  predicate HasMarker(line: string) {
    Find(line, MARKER).Some?
  }

  /** The `format!` of an entry: `path:N: ` and the trimmed rest of the line from `pos`. */
  function TodoText(path: Path, index: nat, line: string, pos: nat): string
    requires pos <= |line|
  {
    Display(path) + ":" + NatToString(index + 1) + ": " + Trim(line[pos..])
  }

  /** What one line contributes: nothing, or one entry (see `LineTodosText`). */
  function LineTodos(path: Path, index: nat, line: string): (todos: seq<Todo>)
    ensures |todos| <= 1
    ensures |todos| == 1 <==> HasMarker(line)
    ensures todos != [] ==> todos[0].1 == Display(path)
  {
    match Find(line, MARKER)
    case None => []
    case Some(pos) => [(TodoText(path, index, line, pos), Display(path))]
  }

  /** The entry of a line holding "TODO": `path:N: ` and the trimmed rest of the line from
      the first "TODO", which still starts with "TODO"; N names the line, 1-based. */
  lemma LineTodosText(path: Path, index: nat, line: string)
    requires exists j :: OccursAt(MARKER, line, j)
    ensures var pos := Find(line, MARKER).value;
      && (forall j :: 0 <= j < pos ==> !OccursAt(MARKER, line, j))
      && LineTodos(path, index, line) == [(Display(path) + ":" + NatToString(index + 1) + ": " + Trim(line[pos..]), Display(path))]
      && OccursAt(MARKER, Trim(line[pos..]), 0)
      && ParseDecimal(NatToString(index + 1)) == index + 1
  {
    var pos := Find(line, MARKER).value;
    assert OccursAt(MARKER, line[pos..], 0) by {
      assert line[pos..][..|MARKER|] == line[pos..pos + |MARKER|];
    }
    TrimKeepsPrefix(line[pos..], MARKER);
    ParseNatToString(index + 1);
  }

  /** What the first `n` lines of a file contribute; the first failing line fails it. */
  function LinesTodos(path: Path, lines: seq<Result<string, Report>>, n: nat): (r: Result<seq<Todo>, Report>)
    requires n <= |lines|
    ensures r.Ok? ==> |r.value| <= n
    decreases n
  {
    if n == 0 then Ok([])
    else
      var acc := LinesTodos(path, lines, n - 1);
      if acc.Err? then acc
      else if lines[n - 1].Err? then Err(lines[n - 1].error)
      else Ok(acc.value + LineTodos(path, n - 1, lines[n - 1].value))
  }

  /** A readable prefix of `n` lines is the readable prefix of `n - 1` lines and what the
      last line contributes. */
  lemma LinesTodosOkStep(path: Path, lines: seq<Result<string, Report>>, n: nat)
    requires 0 < n <= |lines| && LinesTodos(path, lines, n).Ok?
    ensures LinesTodos(path, lines, n - 1).Ok? && lines[n - 1].Ok?
    ensures LinesTodos(path, lines, n).value == LinesTodos(path, lines, n - 1).value + LineTodos(path, n - 1, lines[n - 1].value)
  {
  }

  /** Every entry of a file carries the file's displayed path. */
  lemma {:induction false} LinesTodosPaths(path: Path, lines: seq<Result<string, Report>>, n: nat)
    requires n <= |lines|
    ensures var r := LinesTodos(path, lines, n);
      r.Ok? ==> forall k :: 0 <= k < |r.value| ==> r.value[k].1 == Display(path)
    decreases n
  {
    if n > 0 && LinesTodos(path, lines, n).Ok? {
      LinesTodosOkStep(path, lines, n);
      LinesTodosPaths(path, lines, n - 1);
      var before: seq<Todo> := LinesTodos(path, lines, n - 1).value;
      var last: seq<Todo> := LineTodos(path, n - 1, lines[n - 1].value);
      forall k: nat | k < |before + last| ensures (before + last)[k].1 == Display(path) {
        if k < |before| {
          assert (before + last)[k] == before[k];
        } else {
          assert (before + last)[k] == last[k - |before|];
        }
      }
    }
  }

  /** The first of the first `n` lines whose read fails, or `n`. */
  function FirstFailure(lines: seq<Result<string, Report>>, n: nat): (k: nat)
    requires n <= |lines|
    ensures k <= n
    ensures forall j :: 0 <= j < k ==> lines[j].Ok?
    ensures k < n ==> lines[k].Err?
    decreases n
  {
    if n == 0 then 0
    else
      var k := FirstFailure(lines, n - 1);
      if k < n - 1 then k else if lines[n - 1].Err? then n - 1 else n
  }

  /** A readable file fails exactly when one of its lines fails, and with the error of the
      first such line. */
  lemma {:induction false} LinesTodosFails(path: Path, lines: seq<Result<string, Report>>, n: nat)
    requires n <= |lines|
    ensures LinesTodos(path, lines, n).Err? <==> FirstFailure(lines, n) < n
    ensures LinesTodos(path, lines, n).Err? ==> lines[FirstFailure(lines, n)] == Err(LinesTodos(path, lines, n).error)
    decreases n
  {
    if n > 0 {
      LinesTodosFails(path, lines, n - 1);
    }
  }

  /** Once a line fails, reading further lines keeps that error. */
  lemma {:induction false} LinesTodosErrorPersists(path: Path, lines: seq<Result<string, Report>>, i: nat, n: nat)
    requires i <= n <= |lines|
    requires LinesTodos(path, lines, i).Err?
    ensures LinesTodos(path, lines, n) == LinesTodos(path, lines, i)
    decreases n
  {
    if n > i {
      LinesTodosErrorPersists(path, lines, i, n - 1);
    }
  }

  /** The lines of the first `n` that hold a "TODO", in increasing order. */
  function TodoIndices(lines: seq<Result<string, Report>>, n: nat): seq<nat>
    requires n <= |lines|
    decreases n
  {
    if n == 0 then []
    else
      var before := TodoIndices(lines, n - 1);
      if lines[n - 1].Ok? && HasMarker(lines[n - 1].value) then before + [n - 1] else before
  }

  /** `TodoIndices` lists, in increasing order, exactly the readable lines among the first
      `n` that hold a "TODO". */
  lemma {:induction false} TodoIndicesExact(lines: seq<Result<string, Report>>, n: nat)
    requires n <= |lines|
    ensures var idx := TodoIndices(lines, n);
      && (forall k :: 0 <= k < |idx| ==> idx[k] < n && lines[idx[k]].Ok? && HasMarker(lines[idx[k]].value))
      && (forall k, l :: 0 <= k < l < |idx| ==> idx[k] < idx[l])
      && (forall i :: 0 <= i < n && lines[i].Ok? && HasMarker(lines[i].value) ==> i in idx)
    decreases n
  {
    if n > 0 {
      TodoIndicesExact(lines, n - 1);
      var before := TodoIndices(lines, n - 1);
      if lines[n - 1].Ok? && HasMarker(lines[n - 1].value) {
        var idx := before + [n - 1];
        assert forall k :: 0 <= k < |before| ==> idx[k] == before[k];
        assert idx[|before|] == n - 1;
      }
    }
  }

  /** A file yields one entry per line holding a "TODO". */
  lemma {:induction false} LinesTodosCount(path: Path, lines: seq<Result<string, Report>>, n: nat)
    requires n <= |lines|
    requires LinesTodos(path, lines, n).Ok?
    ensures |LinesTodos(path, lines, n).value| == |TodoIndices(lines, n)|
    decreases n
  {
    if n > 0 {
      LinesTodosOkStep(path, lines, n);
      LinesTodosCount(path, lines, n - 1);
      var line := lines[n - 1].value;
      assert |TodoIndices(lines, n)| == |TodoIndices(lines, n - 1)| + |LineTodos(path, n - 1, line)|;
    }
  }

  /** Entries appear in line order: the k-th entry of a readable file is the one of its
      k-th line holding a "TODO". */
  lemma {:induction false} LinesTodosInOrder(path: Path, lines: seq<Result<string, Report>>, n: nat, k: nat)
    requires n <= |lines|
    requires LinesTodos(path, lines, n).Ok?
    requires k < |TodoIndices(lines, n)|
    ensures var idx := TodoIndices(lines, n);
      && k < |LinesTodos(path, lines, n).value|
      && idx[k] < n && lines[idx[k]].Ok?
      && [LinesTodos(path, lines, n).value[k]] == LineTodos(path, idx[k], lines[idx[k]].value)
    decreases n
  {
    LinesTodosOkStep(path, lines, n);
    LinesTodosCount(path, lines, n);
    LinesTodosCount(path, lines, n - 1);
    var before := LinesTodos(path, lines, n - 1).value;
    var last := LineTodos(path, n - 1, lines[n - 1].value);
    var idx := TodoIndices(lines, n - 1);
    if k < |idx| {
      LinesTodosInOrder(path, lines, n - 1, k);
      assert TodoIndices(lines, n)[k] == idx[k];
      assert (before + last)[k] == before[k];
    } else {
      assert TodoIndices(lines, n) == idx + [n - 1];
      assert TodoIndices(lines, n)[k] == n - 1;
      assert last == [last[0]];
      assert (before + last)[k] == last[0];
    }
  }

  lemma LinesTodosStep(path: Path, lines: seq<Result<string, Report>>, n: nat)
    requires 0 < n <= |lines| && LinesTodos(path, lines, n - 1).Ok? && lines[n - 1].Ok?
    ensures var line := lines[n - 1].value; var found := Find(line, MARKER);
      var before := LinesTodos(path, lines, n - 1).value;
      LinesTodos(path, lines, n) ==
        if found.Some? then Ok(before + [(TodoText(path, n - 1, line, found.value), Display(path))]) else Ok(before)
  {
    var before := LinesTodos(path, lines, n - 1).value;
    assert before + [] == before;
  }

  /** `extract_todos` specified: opening the file may fail, then the lines are scanned. */
  function FileTodos(path: Path, content: Lines): Result<seq<Todo>, Report> {
    if content.Err? then Err(content.error) else LinesTodos(path, content.value, |content.value|)
  }

  /** `extract_todos`: scan the lines in order, with the 1-based line number. */
  method ExtractTodos(path: Path, content: Lines) returns (r: Result<seq<Todo>, Report>)
    ensures r == FileTodos(path, content)
  {
    if content.Err? {
      return Err(content.error);
    }
    var lines := content.value;
    var todos: seq<Todo> := [];
    var index := 0;
    while index < |lines|
      invariant 0 <= index <= |lines|
      invariant LinesTodos(path, lines, index) == Ok(todos)
    {
      if lines[index].Err? {
        LinesTodosErrorPersists(path, lines, index + 1, |lines|);
        return Err(lines[index].error);
      }
      var line := lines[index].value;
      LinesTodosStep(path, lines, index + 1);
      var found := Find(line, MARKER);
      if found.Some? {
        var todo := TodoText(path, index, line, found.value);
        todos := todos + [(todo, Display(path))];
      }
      index := index + 1;
    }
    return Ok(todos);
  }

  // ---------------------------------------------------------------------------
  // The walk

  function ListingSize(listing: Listing): nat {
    if listing.Entries? then |listing.entries| else 0
  }

  /** Every entry names a Rust source file. */
  predicate FromRustFiles(todos: seq<Todo>) {
    forall k :: 0 <= k < |todos| ==> EndsWith(todos[k].1, ".rs")
  }

  lemma FromRustFilesAppend(a: seq<Todo>, b: seq<Todo>)
    requires FromRustFiles(a) && FromRustFiles(b)
    ensures FromRustFiles(a + b)
  {
    forall k | 0 <= k < |a + b| ensures EndsWith((a + b)[k].1, ".rs") {
      if k < |a| {
        assert (a + b)[k] == a[k];
      } else {
        assert (a + b)[k] == b[k - |a|];
      }
    }
  }

  /** A file named `*.rs` displays with a path ending in ".rs". */
  lemma RustFileDisplay(dir: Path, name: string)
    requires Extension(name) == Some("rs")
    ensures EndsWith(Display(dir + [Normal(name)]), ".rs")
  {
    var path := dir + [Normal(name)];
    ExtensionIsRs(name);
    DisplayEndsWithLast(path);
    var shown := Display(path);
    assert shown[|shown| - 3..] == name[|name| - 3..] by {
      assert shown[|shown| - |name|..][|name| - 3..] == shown[|shown| - 3..];
    }
  }

  /** The entries of a file named `*.rs` all carry its displayed path, which ends with
      ".rs". */
  lemma FileTodosFromRustFile(dir: Path, name: string, content: Lines)
    requires Extension(name) == Some("rs")
    ensures var found := FileTodos(dir + [Normal(name)], content);
      found.Ok? ==> FromRustFiles(found.value)
  {
    var path := dir + [Normal(name)];
    RustFileDisplay(dir, name);
    var found := FileTodos(path, content);
    if content.Ok? && found.Ok? {
      LinesTodosPaths(path, content.value, |content.value|);
      forall k | 0 <= k < |found.value| ensures EndsWith(found.value[k].1, ".rs") {
        assert found.value[k].1 == Display(path);
      }
    }
  }

  /** What the first `n` entries of the directory `dir` contribute: a failing read of the
      listing or of an entry fails the walk; a directory is descended unless `test` calls
      it a cargo dependency; a file is scanned when its extension is "rs" and it is not the
      script itself; anything else is passed over. */
  function Walk(dir: Path, listing: Listing, n: nat, script: string, test: Pruning): (r: Result<seq<Todo>, Report>)
    requires n <= ListingSize(listing)
    ensures r.Ok? ==> FromRustFiles(r.value)
    decreases listing, n
  {
    if listing.ListingError? then Err(listing.error)
    else if n == 0 then Ok([])
    else
      var acc := Walk(dir, listing, n - 1, script, test);
      if acc.Err? then acc
      else
        var entry := listing.entries[n - 1];
        if entry.EntryError? then Err(entry.error)
        else
          var path := dir + [Normal(entry.name)];
          match entry
          case DirEntry(_, sub) =>
            if Prunes(test, path) then acc
            else
              var below := Walk(path, sub, ListingSize(sub), script, test);
              if below.Err? then below
              else
                FromRustFilesAppend(acc.value, below.value);
                Ok(acc.value + below.value)
          case FileEntry(name, content) =>
            if Extension(name) == Some("rs") && name != script then
              FileTodosFromRustFile(dir, name, content);
              var found := FileTodos(path, content);
              if found.Err? then found
              else
                FromRustFilesAppend(acc.value, found.value);
                Ok(acc.value + found.value)
            else acc
          case OtherEntry(_) => acc
  }

  /** Once the walk fails, later entries keep that error. */
  lemma {:induction false} WalkErrorPersists(dir: Path, listing: Listing, i: nat, n: nat, script: string, test: Pruning)
    requires i <= n <= ListingSize(listing)
    requires Walk(dir, listing, i, script, test).Err?
    ensures Walk(dir, listing, n, script, test) == Walk(dir, listing, i, script, test)
    decreases n
  {
    if n > i {
      WalkErrorPersists(dir, listing, i, n - 1, script, test);
    }
  }

  /** The skip rules: the last of `n` entries contributes nothing when it is a file whose
      extension is not "rs", the script itself, a cargo dependency or neither a file nor
      a directory. */
  lemma WalkSkips(dir: Path, listing: Listing, n: nat, script: string, test: Pruning)
    requires 0 < n <= ListingSize(listing)
    requires var e := listing.entries[n - 1];
      || (e.FileEntry? && (Extension(e.name) != Some("rs") || e.name == script))
      || (e.DirEntry? && Prunes(test, dir + [Normal(e.name)]))
      || e.OtherEntry?
    ensures Walk(dir, listing, n, script, test) == Walk(dir, listing, n - 1, script, test)
  {
  }

  /** With the corrected test, a directory named "target" at the root "." contributes
      nothing whatever it holds. */
  lemma RootTargetSkipped(listing: Listing, n: nat, script: string, sub: Listing)
    requires 0 < n <= ListingSize(listing)
    requires listing.entries[n - 1] == DirEntry("target", sub)
    ensures Walk([CurDir], listing, n, script, Corrected) == Walk([CurDir], listing, n - 1, script, Corrected)
  {
    CargoDependencyUnderRoot([Normal("target")]);
    assert [CurDir] + [Normal("target")] == [CurDir, Normal("target")];
  }

  /** With the test as shipped, a directory named "target" at the root "." is descended
      like any other, and what it holds joins the report. */
  lemma RootTargetDescendedAsWritten(listing: Listing, n: nat, script: string, sub: Listing)
    requires 0 < n <= ListingSize(listing)
    requires listing.entries[n - 1] == DirEntry("target", sub)
    ensures var acc := Walk([CurDir], listing, n - 1, script, AsWritten);
      var below := Walk([CurDir, Normal("target")], sub, ListingSize(sub), script, AsWritten);
      acc.Ok? ==> Walk([CurDir], listing, n, script, AsWritten)
                  == if below.Err? then below else Ok(acc.value + below.value)
  {
    AsWrittenNeverPrunes([Normal("target")]);
    assert [CurDir] + [Normal("target")] == [CurDir, Normal("target")];
  }

  /** A project whose only Rust file is `./target/a.rs`, holding one TODO line: the shipped
      walk reports it, the corrected walk reports nothing. */
  lemma TargetTodoReportedAsWritten()
    ensures var project := Entries([DirEntry("target", Entries([FileEntry("a.rs", Ok([Ok("TODO x")]))]))]);
      && Walk([CurDir], project, 1, SCRIPT_FILE, AsWritten) == Ok([("./target/a.rs:1: TODO x", "./target/a.rs")])
      && Walk([CurDir], project, 1, SCRIPT_FILE, Corrected) == Ok([])
  {
    var sub := Entries([FileEntry("a.rs", Ok([Ok("TODO x")]))]);
    var project := Entries([DirEntry("target", sub)]);
    var found := [("./target/a.rs:1: TODO x", "./target/a.rs")];
    assert Walk([CurDir], project, 0, SCRIPT_FILE, AsWritten) == Ok([]);
    assert Walk([CurDir], project, 0, SCRIPT_FILE, Corrected) == Ok([]);
    RootTargetSkipped(project, 1, SCRIPT_FILE, sub);
    RootTargetDescendedAsWritten(project, 1, SCRIPT_FILE, sub);
    SampleTargetWalk();
    assert [] + found == found;
  }

  /** The walk of `./target` in that project. */
  lemma SampleTargetWalk()
    ensures Walk([CurDir, Normal("target")], Entries([FileEntry("a.rs", Ok([Ok("TODO x")]))]), 1, SCRIPT_FILE, AsWritten)
            == Ok([("./target/a.rs:1: TODO x", "./target/a.rs")])
  {
    var path := [CurDir, Normal("target"), Normal("a.rs")];
    assert [CurDir, Normal("target")] + [Normal("a.rs")] == path;
    assert Extension("a.rs") == Some("rs") by {
      assert LastDot("a.rs"[..3]) == Some(1);
    }
    SampleLineTodos();
    var found := [("./target/a.rs:1: TODO x", "./target/a.rs")];
    var lines: seq<Result<string, Report>> := [Ok("TODO x")];
    assert LinesTodos(path, lines, 0) == Ok([]);
    assert LinesTodos(path, lines, 1) == Ok([] + found);
    assert [] + found == found;
    assert FileTodos(path, Ok(lines)) == Ok(found);
    assert "a.rs" != SCRIPT_FILE;
    var sub := Entries([FileEntry("a.rs", Ok([Ok("TODO x")]))]);
    assert Walk([CurDir, Normal("target")], sub, 0, SCRIPT_FILE, AsWritten) == Ok([]);
  }

  lemma SamplePathDisplay()
    ensures Display([CurDir, Normal("target"), Normal("a.rs")]) == "./target/a.rs"
  {
    DisplayJoin([CurDir], "target");
    DisplayJoin([CurDir, Normal("target")], "a.rs");
    assert [CurDir] + [Normal("target")] == [CurDir, Normal("target")];
    assert [CurDir, Normal("target")] + [Normal("a.rs")] == [CurDir, Normal("target"), Normal("a.rs")];
  }

  /** The one line of `./target/a.rs`. */
  lemma SampleLineTodos()
    ensures LineTodos([CurDir, Normal("target"), Normal("a.rs")], 0, "TODO x")
            == [("./target/a.rs:1: TODO x", "./target/a.rs")]
  {
    var path := [CurDir, Normal("target"), Normal("a.rs")];
    SamplePathDisplay();
    assert OccursAt(MARKER, "TODO x", 0);
    assert Find("TODO x", MARKER) == Some(0);
    assert "TODO x"[0..] == "TODO x";
    assert Trim("TODO x") == "TODO x";
    assert NatToString(1) == "1";
    assert TodoText(path, 0, "TODO x", 0) == "./target/a.rs" + ":" + "1" + ": " + "TODO x";
    assert "./target/a.rs" + ":" + "1" + ": " + "TODO x" == "./target/a.rs:1: TODO x";
  }

  /** `collect_todos`: read the listing, then each entry in order, recursing into
      subdirectories and extending the accumulator. */
  method CollectTodos(dir: Path, listing: Listing, script: string, test: Pruning)
    returns (r: Result<seq<Todo>, Report>)
    ensures r == Walk(dir, listing, ListingSize(listing), script, test)
    decreases listing, 1
  {
    if listing.ListingError? {
      return Err(listing.error);
    }
    var todos: seq<Todo> := [];
    var i := 0;
    while i < |listing.entries|
      invariant 0 <= i <= |listing.entries|
      invariant Walk(dir, listing, i, script, test) == Ok(todos)
    {
      r := CollectEntry(dir, listing, i, script, test, todos);
      if r.Err? {
        WalkErrorPersists(dir, listing, i + 1, |listing.entries|, script, test);
        return r;
      }
      todos := r.value;
      i := i + 1;
    }
    return Ok(todos);
  }

  /** One iteration of `collect_todos`: the entry at `i` extends the accumulator `todos`. */
  method CollectEntry(dir: Path, listing: Listing, i: nat, script: string, test: Pruning, todos: seq<Todo>)
    returns (r: Result<seq<Todo>, Report>)
    requires listing.Entries? && i < |listing.entries|
    requires Walk(dir, listing, i, script, test) == Ok(todos)
    ensures r == Walk(dir, listing, i + 1, script, test)
    decreases listing, 0
  {
    var entry := listing.entries[i];
    if entry.EntryError? {
      return Err(entry.error);
    }
    var path := dir + [Normal(entry.name)];
    match entry {
      case DirEntry(_, sub) =>
        if Prunes(test, path) {
          return Ok(todos);
        }
        var below := CollectTodos(path, sub, script, test);
        if below.Err? {
          return below;
        }
        return Ok(todos + below.value);
      case FileEntry(name, content) =>
        if Extension(name) != Some("rs") || name == script {
          return Ok(todos);
        }
        var found := ExtractTodos(path, content);
        if found.Err? {
          return found;
        }
        return Ok(todos + found.value);
      case OtherEntry(_) =>
        return Ok(todos);
    }
  }

  // ---------------------------------------------------------------------------
  // Output

  const HEADER: string := "TODOs in project:"

  /** `write_todos_to_file`: the lines written, each followed by a newline in the file. */
  method WriteTodosToFile(todos: seq<Todo>) returns (lines: seq<string>)
    ensures |lines| == |todos| + 1 && lines[0] == HEADER
    ensures forall k :: 0 <= k < |todos| ==> lines[k + 1] == todos[k].0 + " " + todos[k].1
  {
    lines := [HEADER];
    for i := 0 to |todos|
      invariant |lines| == i + 1 && lines[0] == HEADER
      invariant forall k :: 0 <= k < i ==> lines[k + 1] == todos[k].0 + " " + todos[k].1
    {
      var (todo, path) := todos[i];
      lines := lines + [todo + " " + path];
    }
  }

  /** `main`: walk the project from "." skipping this script, with the dependency test as
      shipped, then write the report. */
  method CollectProjectTodos(project: Listing) returns (r: Result<seq<string>, Report>)
    ensures var walked := Walk([CurDir], project, ListingSize(project), SCRIPT_FILE, AsWritten);
      && (r.Err? <==> walked.Err?)
      && (r.Err? ==> r.error == walked.error)
      && (r.Ok? ==> |r.value| == |walked.value| + 1 && r.value[0] == HEADER
                    && forall k :: 0 <= k < |walked.value| ==>
                         r.value[k + 1] == walked.value[k].0 + " " + walked.value[k].1)
  {
    var todos := CollectTodos([CurDir], project, SCRIPT_FILE, AsWritten);
    if todos.Err? {
      return Err(todos.error);
    }
    var lines := WriteTodosToFile(todos.value);
    return Ok(lines);
  }
}
