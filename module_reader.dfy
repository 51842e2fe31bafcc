/** Loading a Terraform module from disk (main.py:61-110): discovery of the
    `*.tf` files of one directory, reading them, and serialising what was read
    into the text the agents see. The file system is an input value. */
module ModuleReader {
  import opened Wrappers
  import opened Text

  /** What a path names: nothing, something that is not a directory, or a
      directory. A directory maps each entry name to the text of that entry,
      or to `None` when opening or decoding it fails (a sub-directory whose
      name ends in `.tf`, a file without read permission, bytes that are not
      valid text). */
  datatype DirectoryPath =
    | Missing
    | NotADirectory
    | Directory(entries: map<string, Option<string>>)

  /** `Path.glob("*.tf")` on one directory: `*` matches any name, dot-files
      and the empty stem included. */
  predicate IsTfName(name: string) {
    EndsWith(name, ".tf")
  }

  ghost function TfNames(d: DirectoryPath): set<string> {
    if d.Directory? then set n | n in d.entries && IsTfName(n) else {}
  }

  predicate StrictlySorted(s: seq<string>) {
    forall i, j :: 0 <= i < j < |s| ==> LexLess(s[i], s[j])
  }

  predicate Distinct(s: seq<string>) {
    forall i, j :: 0 <= i < j < |s| ==> s[i] != s[j]
  }

  /** `files` is what discovery must return for `d`: every `*.tf` entry once,
      nothing else, in ascending code-point order. */
  ghost predicate IsListing(d: DirectoryPath, files: seq<string>) {
    StrictlySorted(files) && forall n :: n in files <==> n in TfNames(d)
  }

  // ---------------------------------------------------------------------------
  // `sorted(...)` on distinct names
  // ---------------------------------------------------------------------------

  lemma StrictlySortedTail(s: seq<string>)
    requires StrictlySorted(s) && |s| > 0
    ensures StrictlySorted(s[1..]) && s[0] !in s[1..]
  {
    LexLessIrreflexive(s[0]);
    forall k | 1 <= k < |s|
      ensures s[k] != s[0]
    {
      assert LexLess(s[0], s[k]);
    }
  }

  /** The head of a sorted list is below or equal to each member. */
  lemma HeadIsLeast(s: seq<string>, x: string)
    requires StrictlySorted(s) && x in s
    ensures LexLe(s[0], x)
  {
    var i :| 0 <= i < |s| && s[i] == x;
    if i > 0 {
      assert LexLess(s[0], s[i]);
    }
  }

  /** A name that is not below the head of a sorted list is above it. */
  lemma BelowHead(x: string, s: seq<string>)
    requires StrictlySorted(s) && |s| > 0 && x != s[0] && LexLess(x, s[0])
    ensures forall j :: 0 <= j < |s| ==> LexLess(x, s[j])
  {
    forall j | 0 < j < |s|
      ensures LexLess(x, s[j])
    {
      LexLessTransitive(x, s[0], s[j]);
    }
  }

  function Insert(x: string, s: seq<string>): (r: seq<string>)
    requires StrictlySorted(s) && x !in s
    ensures StrictlySorted(r) && multiset(r) == multiset(s) + multiset{x}
    decreases |s|
  {
    if |s| == 0 then [x]
    else if LexLess(x, s[0]) then
      BelowHead(x, s);
      [x] + s
    else
      StrictlySortedTail(s);
      LexLessTotal(x, s[0]);
      var rest := Insert(x, s[1..]);
      InsertAfterHead(x, s, rest);
      [s[0]] + rest
  }

  lemma InsertAfterHead(x: string, s: seq<string>, rest: seq<string>)
    requires StrictlySorted(s) && |s| > 0 && LexLess(s[0], x)
    requires StrictlySorted(rest) && multiset(rest) == multiset(s[1..]) + multiset{x}
    ensures StrictlySorted([s[0]] + rest)
    ensures multiset([s[0]] + rest) == multiset(s) + multiset{x}
  {
    forall j | 0 <= j < |rest|
      ensures LexLess(s[0], rest[j])
    {
      assert rest[j] in multiset(rest);
      if rest[j] != x {
        assert rest[j] in s[1..];
        var k :| 0 <= k < |s[1..]| && s[1..][k] == rest[j];
        assert LexLess(s[0], s[k + 1]);
      }
    }
    assert s == [s[0]] + s[1..];
  }

  /** `sorted(names)` for names that are pairwise different (paths produced by
      one directory scan): the same names, ascending. */
  function SortNames(s: seq<string>): (r: seq<string>)
    requires Distinct(s)
    ensures StrictlySorted(r) && multiset(r) == multiset(s)
    decreases |s|
  {
    if |s| == 0 then []
    else
      var init := s[..|s| - 1];
      var last := s[|s| - 1];
      assert s == init + [last];
      var sortedInit := SortNames(init);
      assert last !in multiset(init);
      Insert(last, sortedInit)
  }

  /** Two strictly sorted lists with the same members are the same list. */
  lemma {:induction false} SortedByMembers(a: seq<string>, b: seq<string>)
    requires StrictlySorted(a) && StrictlySorted(b)
    requires forall n :: n in a <==> n in b
    ensures a == b
    decreases |a|
  {
    if |b| > 0 {
      assert b[0] in a;
    }
    if |a| > 0 {
      assert a[0] in b;
      HeadIsLeast(a, b[0]);
      HeadIsLeast(b, a[0]);
      LexLeAntisymmetric(a[0], b[0]);
      StrictlySortedTail(a);
      StrictlySortedTail(b);
      forall n
        ensures n in a[1..] <==> n in b[1..]
      {
        assert n in a <==> n in a[1..] || n == a[0];
        assert n in b <==> n in b[1..] || n == b[0];
      }
      SortedByMembers(a[1..], b[1..]);
      assert a == [a[0]] + a[1..] && b == [b[0]] + b[1..];
    }
  }

  /** Discovery is deterministic: a directory has exactly one listing. */
  lemma ListingUnique(d: DirectoryPath, a: seq<string>, b: seq<string>)
    requires IsListing(d, a) && IsListing(d, b)
    ensures a == b
  {
    SortedByMembers(a, b);
  }

  // ---------------------------------------------------------------------------
  // main.py:61-77 `find_terraform_files`
  // ---------------------------------------------------------------------------

  /** A missing path or a non-directory gives `[]`; a directory gives its
      `*.tf` entries, each once, sorted. */
  method FindTerraformFiles(d: DirectoryPath) returns (files: seq<string>)
    ensures IsListing(d, files)
    ensures !d.Directory? ==> files == []
  {
    if !d.Directory? {
      return [];
    }
    var found: seq<string> := [];
    var pending := d.entries.Keys;
    while pending != {}
      invariant pending <= d.entries.Keys
      invariant Distinct(found)
      invariant forall n :: n in found <==> n in d.entries && n !in pending && IsTfName(n)
      decreases |pending|
    {
      var name :| name in pending;
      if IsTfName(name) {
        found := found + [name];
      }
      pending := pending - {name};
    }
    files := SortNames(found);
    assert forall n :: n in files <==> n in multiset(found);
  }

  /** Example: only the `.tf` entries survive, in code-point order, and dot
      files and sub-directories named like modules count as matches. */
  lemma ListingExample(files: seq<string>)
    requires IsListing(Directory(map["variables.tf" := Some(""), "README.md" := Some("x"),
                                     "main.tf" := Some("a"), ".hidden.tf" := None]), files)
    ensures files == [".hidden.tf", "main.tf", "variables.tf"]
  {
    var d := Directory(map["variables.tf" := Some(""), "README.md" := Some("x"),
                           "main.tf" := Some("a"), ".hidden.tf" := None]);
    var expected := [".hidden.tf", "main.tf", "variables.tf"];
    assert !IsTfName("README.md");
    assert IsTfName("variables.tf") && IsTfName("main.tf") && IsTfName(".hidden.tf");
    assert TfNames(d) == {"variables.tf", "main.tf", ".hidden.tf"};
    assert LexLess(".hidden.tf", "main.tf");
    assert LexLess("main.tf", "variables.tf");
    LexLessTransitive(".hidden.tf", "main.tf", "variables.tf");
    assert IsListing(d, expected);
    ListingUnique(d, files, expected);
  }

  // ---------------------------------------------------------------------------
  // main.py:80-99 `read_terraform_module`
  // ---------------------------------------------------------------------------

  /** One entry of the `module_content` dictionary. The dictionary keeps
      insertion order and its keys are file names, so it is the sequence of
      its entries. */
  datatype FileEntry = FileEntry(name: string, content: string)

  function Names(mc: seq<FileEntry>): (r: seq<string>)
    ensures |r| == |mc| && forall k :: 0 <= k < |mc| ==> r[k] == mc[k].name
  {
    seq(|mc|, k requires 0 <= k < |mc| => mc[k].name)
  }

  /** The entries that reading `names` in order adds to `module_content`: a
      name whose read succeeds adds its text, one whose read fails adds
      nothing. */
  function LoadFiles(entries: map<string, Option<string>>, names: seq<string>): seq<FileEntry>
    decreases |names|
  {
    if |names| == 0 then []
    else
      var prev := LoadFiles(entries, names[..|names| - 1]);
      var name := names[|names| - 1];
      if name in entries && entries[name].Some? then prev + [FileEntry(name, entries[name].value)]
      else prev
  }

  /** `len(content.split('\n'))` summed over the entries read. */
  function LineTotal(mc: seq<FileEntry>): nat
    decreases |mc|
  {
    if |mc| == 0 then 0 else LineTotal(mc[..|mc| - 1]) + |Split(mc[|mc| - 1].content, '\n')|
  }

  /** Number of `'\n'` characters over all the entries read. */
  function NewlineTotal(mc: seq<FileEntry>): nat
    decreases |mc|
  {
    if |mc| == 0 then 0 else NewlineTotal(mc[..|mc| - 1]) + Count(mc[|mc| - 1].content, '\n')
  }

  /** Every name listed is read once; a failed read is skipped with a warning
      and the rest go on. With no file found the result is `({}, [], 0)`. */
  method ReadTerraformModule(d: DirectoryPath)
    returns (moduleContent: seq<FileEntry>, tfFiles: seq<string>, totalLines: nat)
    ensures IsListing(d, tfFiles)
    ensures TfNames(d) == {} ==> moduleContent == [] && tfFiles == [] && totalLines == 0
    ensures d.Directory? ==> moduleContent == LoadFiles(d.entries, tfFiles)
    ensures !d.Directory? ==> moduleContent == []
    ensures totalLines == LineTotal(moduleContent)
  {
    tfFiles := FindTerraformFiles(d);
    if |tfFiles| == 0 {
      assert forall n :: n !in TfNames(d);
      return [], [], 0;
    }
    assert tfFiles[0] in TfNames(d);
    moduleContent := [];
    totalLines := 0;
    for i := 0 to |tfFiles|
      invariant moduleContent == LoadFiles(d.entries, tfFiles[..i])
      invariant totalLines == LineTotal(moduleContent)
    {
      assert tfFiles[..i + 1][..i] == tfFiles[..i];
      var name := tfFiles[i];
      if name in d.entries && d.entries[name].Some? {
        var content := d.entries[name].value;
        ghost var prev := moduleContent;
        moduleContent := moduleContent + [FileEntry(name, content)];
        assert moduleContent[..|moduleContent| - 1] == prev;
        totalLines := totalLines + |Split(content, '\n')|;
      }
    }
    assert tfFiles[..|tfFiles|] == tfFiles;
  }

  /** An entry is in `module_content` exactly when its name was listed and its
      read succeeded with that text. */
  lemma {:induction false} LoadFilesMembers(entries: map<string, Option<string>>, names: seq<string>,
                                            e: FileEntry)
    ensures e in LoadFiles(entries, names) <==>
            e.name in names && e.name in entries && entries[e.name] == Some(e.content)
    decreases |names|
  {
    if |names| > 0 {
      var init := names[..|names| - 1];
      LoadFilesMembers(entries, init, e);
      assert names == init + [names[|names| - 1]];
    }
  }

  /** The keys of `module_content` are the listed names minus the failed
      ones, in listing order. */
  lemma {:induction false} LoadFilesKeepsOrder(entries: map<string, Option<string>>, names: seq<string>)
    requires StrictlySorted(names)
    ensures StrictlySorted(Names(LoadFiles(entries, names)))
    ensures |LoadFiles(entries, names)| <= |names|
    decreases |names|
  {
    if |names| > 0 {
      var init := names[..|names| - 1];
      var last := names[|names| - 1];
      assert StrictlySorted(init);
      LoadFilesKeepsOrder(entries, init);
      var prev := LoadFiles(entries, init);
      if last in entries && entries[last].Some? {
        var r := prev + [FileEntry(last, entries[last].value)];
        forall k | 0 <= k < |prev|
          ensures LexLess(prev[k].name, last)
        {
          LoadFilesMembers(entries, init, prev[k]);
          var i :| 0 <= i < |init| && init[i] == prev[k].name;
          assert names[i] == init[i];
        }
        assert StrictlySorted(Names(r));
      }
    }
  }

  /** A listed name that failed to read is absent from `module_content`. */
  lemma FailedReadAbsent(entries: map<string, Option<string>>, names: seq<string>, name: string)
    requires name in names && name in entries && entries[name] == None
    ensures name !in Names(LoadFiles(entries, names))
  {
    var mc := LoadFiles(entries, names);
    if name in Names(mc) {
      var k :| 0 <= k < |mc| && Names(mc)[k] == name;
      LoadFilesMembers(entries, names, mc[k]);
    }
  }

  /** `total_lines` counts one line per file read plus one per newline, so it
      is at least the number of files read. */
  lemma {:induction false} LineTotalCounts(mc: seq<FileEntry>)
    ensures LineTotal(mc) == |mc| + NewlineTotal(mc)
    ensures LineTotal(mc) >= |mc|
    decreases |mc|
  {
    if |mc| > 0 {
      LineTotalCounts(mc[..|mc| - 1]);
      SplitLength(mc[|mc| - 1].content, '\n');
    }
  }

  // ---------------------------------------------------------------------------
  // main.py:102-110 `format_module_content`
  // ---------------------------------------------------------------------------

  const NoCode: string := "No Terraform code found."
  const FileHeader: string := "## File: "
  const FenceOpen: string := "\n```hcl\n"
  const FenceClose: string := "\n```\n"

  function Block(e: FileEntry): string {
    FileHeader + e.name + FenceOpen + e.content + FenceClose
  }

  function Blocks(mc: seq<FileEntry>): (r: seq<string>)
    ensures |r| == |mc| && forall k :: 0 <= k < |mc| ==> r[k] == Block(mc[k])
  {
    seq(|mc|, k requires 0 <= k < |mc| => Block(mc[k]))
  }

  /** The text the agents are given for a loaded module. */
  function FormattedModule(mc: seq<FileEntry>): string {
    if |mc| == 0 then NoCode else Join("\n", Blocks(mc))
  }

  /** An empty module gives exactly the fixed notice; otherwise the blocks, one
      per entry in order, joined by newlines. */
  method FormatModuleContent(mc: seq<FileEntry>) returns (formatted: string)
    ensures formatted == FormattedModule(mc)
    ensures mc == [] ==> formatted == NoCode
  {
    if |mc| == 0 {
      return NoCode;
    }
    var blocks: seq<string> := [];
    for i := 0 to |mc|
      invariant blocks == Blocks(mc[..i])
    {
      blocks := blocks + [FileHeader + mc[i].name + FenceOpen + mc[i].content + FenceClose];
    }
    assert mc[..|mc|] == mc;
    formatted := Join("\n", blocks);
  }

  /** Where entry `i`'s block starts in the formatted module. */
  function BlockOffset(mc: seq<FileEntry>, i: nat): nat
    requires i < |mc|
  {
    PartOffset("\n", Blocks(mc), i)
  }

  /** Text `f` shows entry `e`'s block from offset `s` on: its header, its
      name, the opening fence, its text and the closing fence, each verbatim
      and in that order. */
  predicate ShowsBlock(f: string, s: nat, e: FileEntry) {
    var o := s + |FileHeader|; var c := o + |e.name| + |FenceOpen|; var z := c + |e.content|;
    && z + |FenceClose| <= |f|
    && f[s..o] == FileHeader
    && f[o..o + |e.name|] == e.name
    && f[o + |e.name|..c] == FenceOpen
    && f[c..z] == e.content
    && f[z..z + |FenceClose|] == FenceClose
  }

  /** Every file appears as its own block in the formatted module. */
  lemma FormattedShowsFile(mc: seq<FileEntry>, i: nat)
    requires i < |mc|
    ensures ShowsBlock(FormattedModule(mc), BlockOffset(mc, i), mc[i])
  {
    var bs := Blocks(mc);
    var f := FormattedModule(mc);
    assert f == Join("\n", bs);
    assert bs[i] == Block(mc[i]);
    JoinContainsPart("\n", bs, i);
    BlockWithin(f, BlockOffset(mc, i), mc[i]);
  }

  /** A block found at offset `s` of a text is shown there part by part. */
  lemma BlockWithin(f: string, s: nat, e: FileEntry)
    requires s + |Block(e)| <= |f| && f[s..s + |Block(e)|] == Block(e)
    ensures ShowsBlock(f, s, e)
  {
    var b := Block(e);
    BlockLayout(e);
    var h := |FileHeader|;
    var n := h + |e.name|;
    var p := n + |FenceOpen|;
    var q := p + |e.content|;
    SliceWithin(f, s, b, 0, h);
    SliceWithin(f, s, b, h, n);
    SliceWithin(f, s, b, n, p);
    SliceWithin(f, s, b, p, q);
    SliceWithin(f, s, b, q, |b|);
  }

  /** The five parts of one block, in order. */
  lemma BlockLayout(e: FileEntry)
    ensures var b := Block(e); var h := |FileHeader|; var n := h + |e.name|;
            var p := n + |FenceOpen|; var q := p + |e.content|;
            && q + |FenceClose| == |b|
            && b[..h] == FileHeader && b[h..n] == e.name && b[n..p] == FenceOpen
            && b[p..q] == e.content && b[q..] == FenceClose
  {
    FiveParts(FileHeader, e.name, FenceOpen, e.content, FenceClose);
  }
}
