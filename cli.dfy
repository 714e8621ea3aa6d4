/**
 * The command (src/pycloak/cli.py): discover the project's names, build one
 * global rename map, then rename, encrypt and write every `.py` file.
 */
module Cli {
  import opened PyAst
  import opened Transformers
  import opened Discoverer

  /** `create_rename_map`: every discovered name is sent to a freshly generated name. */
  function CreateRenameMap(names: set<string>, draw: Oracle): (m: map<string, string>)
    requires ValidOracle(draw)
    ensures m.Keys == names
    ensures forall k :: k in m ==> IsGeneratedName(m[k], NameLength)
  {
    FreshNames(names, draw)
  }

  /** Distinct draws give distinct new names: the map is injective exactly when the draws are. */
  lemma CreateRenameMapInjective(names: set<string>, draw: Oracle, a: string, b: string)
    requires ValidOracle(draw) && a in names && b in names
    ensures CreateRenameMap(names, draw)[a] == CreateRenameMap(names, draw)[b] <==> draw(a) == draw(b)
  {
    var m := CreateRenameMap(names, draw);
    if m[a] == m[b] {
      GenerateRandomNameInjective(NameLength, draw(a), draw(b));
    }
  }

  /** Nothing stops two names from receiving the same new name. */
  lemma CreateRenameMapMayCollide()
    ensures var m := CreateRenameMap({"load", "save"}, (s: string) => [0, 0, 0, 0]);
      m["load"] == m["save"] == "_aaaa"
  {
    var draw := (s: string) => [0, 0, 0, 0];
    assert ValidPicks([0, 0, 0, 0], NameLength);
    assert Alphabet[0] == 'a';
    assert GenerateRandomName(NameLength, [0, 0, 0, 0]) == "_aaaa";
  }

  // ---------------------------------------------------------------------
  // The per-file pipeline

  /** What `StringEncryptor().visit` produces: the new module body and its `encrypted_strings` table. */
  datatype Encrypted = Encrypted(body: seq<Node>, table: seq<string>)

  /** `StringEncryptor().visit` applied to a module body. */
  type Encryptor = seq<Node> -> Encrypted

  /** `create_decryptor_preamble`: the statements that decrypt a table at run time. */
  type PreambleBuilder = seq<string> -> seq<Node>

  /**
   * One file's transformation pipeline: global renaming, then string
   * encryption of the renamed tree, then the preamble in front when the
   * encryptor recorded any string. The encrypted body always ends the result;
   * what stands before it is the preamble, or nothing when the table is empty.
   */
  function TransformFile(m: map<string, string>, encrypt: Encryptor, preamble: PreambleBuilder, body: seq<Node>): (r: seq<Node>)
    ensures var e := encrypt(GlobalRenamerAll(m, body));
      |r| >= |e.body| && r[|r| - |e.body|..] == e.body &&
      r[..|r| - |e.body|] == (if e.table == [] then [] else preamble(e.table))
  {
    var e := encrypt(GlobalRenamerAll(m, body));
    if e.table != [] then preamble(e.table) + e.body else e.body
  }

  /**
   * Whatever the encryptor does, it is given the renamed tree (the relabelling
   * by the global rule), and what it returns ends the written file unchanged.
   */
  lemma TransformFileEncryptsRenamedTree(m: map<string, string>, encrypt: Encryptor, preamble: PreambleBuilder, body: seq<Node>)
    ensures var r := TransformFile(m, encrypt, preamble, body);
      var e := encrypt(RelabelAll(body, GlobalRule(m)));
      |r| >= |e.body| && r[|r| - |e.body|..] == e.body &&
      (e.table == [] ==> r == e.body)
  {
    GlobalRenamerAllIsRelabel(m, body);
  }

  /** Without strings to encrypt, a file is exactly its global renaming. */
  lemma TransformFileRenamesFirst(m: map<string, string>, preamble: PreambleBuilder, body: seq<Node>)
    ensures TransformFile(m, (b: seq<Node>) => Encrypted(b, []), preamble, body) == RelabelAll(body, GlobalRule(m))
  {
    GlobalRenamerAllIsRelabel(m, body);
  }

  // ---------------------------------------------------------------------
  // Output paths

  /** `os.path.relpath(root, source_dir)` as path components: the source root itself is `.`. */
  function RelativeDir(dir: seq<string>): seq<string>
  {
    if dir == [] then ["."] else dir
  }

  /** `os.path.join(output_dir, relative_path, file)` as path components. */
  function OutputPath(outputDir: string, dir: seq<string>, filename: string): (p: seq<string>)
    ensures |p| >= 3 && p[0] == outputDir && p[|p| - 1] == filename
    ensures p[1..|p| - 1] == RelativeDir(dir)
  {
    [outputDir] + RelativeDir(dir) + [filename]
  }

  /** A directory reached by `os.walk` has no `.` component. */
  predicate WalkedDir(dir: seq<string>)
  {
    forall i :: 0 <= i < |dir| ==> dir[i] != "."
  }

  /** Different source files are written to different output paths. */
  lemma OutputPathInjective(outputDir: string, d1: seq<string>, f1: string, d2: seq<string>, f2: string)
    requires WalkedDir(d1) && WalkedDir(d2)
    requires OutputPath(outputDir, d1, f1) == OutputPath(outputDir, d2, f2)
    ensures d1 == d2 && f1 == f2
  {
    var p := OutputPath(outputDir, d1, f1);
    assert RelativeDir(d1) == RelativeDir(d2) && p[|p| - 1] == f1 == f2;
    assert d1 != [] ==> RelativeDir(d1)[0] != ".";
    assert d2 != [] ==> RelativeDir(d2)[0] != ".";
  }

  // ---------------------------------------------------------------------
  // main

  /** A file written by the command: its path components and its module body. */
  datatype OutputFile = OutputFile(path: seq<string>, body: seq<Node>)

  /** Every `.py` file parses (what a successful discovery guarantees). */
  predicate AllParsed(files: seq<SourceFile>)
  {
    forall i :: 0 <= i < |files| && EndsWithPy(files[i].filename) ==> files[i].source.Parsed?
  }

  /** The output of one file, when it is a `.py` file. */
  function OutputOf(f: SourceFile, outputDir: string, m: map<string, string>, encrypt: Encryptor, preamble: PreambleBuilder): OutputFile
    requires f.source.Parsed?
  {
    OutputFile(OutputPath(outputDir, f.dir, f.filename), TransformFile(m, encrypt, preamble, f.source.body))
  }

  /** The files the transformation pass writes, in walk order. */
  function Outputs(files: seq<SourceFile>, outputDir: string, m: map<string, string>, encrypt: Encryptor, preamble: PreambleBuilder): seq<OutputFile>
    requires AllParsed(files)
  {
    if files == [] then []
    else
      var f := files[|files| - 1];
      Outputs(files[..|files| - 1], outputDir, m, encrypt, preamble) +
      (if EndsWithPy(f.filename) then [OutputOf(f, outputDir, m, encrypt, preamble)] else [])
  }

  /**
   * `main`: discovery first (a file that does not parse aborts the command and
   * nothing is written), then a single rename map, then every `.py` file is
   * transformed with that same map and written under the output directory.
   */
  method Obfuscate(files: seq<SourceFile>, outputDir: string, draw: Oracle, encrypt: Encryptor, preamble: PreambleBuilder)
    returns (r: Result<seq<OutputFile>>)
    requires ValidOracle(draw)
    ensures r.Err? <==> ProjectNames(files).Err?
    ensures r.Err? ==> r.error == ProjectNames(files).error
    ensures r.Ok? ==> AllParsed(files)
    ensures r.Ok? ==> r.value == Outputs(files, outputDir, CreateRenameMap(ProjectNames(files).value, draw), encrypt, preamble)
  {
    var projectNames := Discover(files);
    if projectNames.Err? {
      return Err(projectNames.error);
    }
    ProjectNamesSpec(files);
    var globalRenameMap := CreateRenameMap(projectNames.value, draw);
    var written: seq<OutputFile> := [];
    for i := 0 to |files|
      invariant written == Outputs(files[..i], outputDir, globalRenameMap, encrypt, preamble)
    {
      assert files[..i + 1][..i] == files[..i];
      var f := files[i];
      if EndsWithPy(f.filename) {
        var tree := f.source.body;
        tree := GlobalRenamerAll(globalRenameMap, tree);
        var encrypted := encrypt(tree);
        tree := encrypted.body;
        if encrypted.table != [] {
          tree := preamble(encrypted.table) + tree;
        }
        written := written + [OutputFile(OutputPath(outputDir, f.dir, f.filename), tree)];
      }
      assert files[..i + 1][i] == f;
    }
    assert files[..|files|] == files;
    r := Ok(written);
  }

  /** The `.py` files among `files`, each mapped by `g`, in walk order. */
  function PyOutputs(files: seq<SourceFile>, g: SourceFile -> OutputFile): seq<OutputFile>
  {
    if files == [] then []
    else
      var f := files[|files| - 1];
      PyOutputs(files[..|files| - 1], g) + (if EndsWithPy(f.filename) then [g(f)] else [])
  }

  lemma {:induction false} PyOutputsSpec(files: seq<SourceFile>, g: SourceFile -> OutputFile)
    ensures forall o :: o in PyOutputs(files, g) <==>
      exists i :: 0 <= i < |files| && EndsWithPy(files[i].filename) && o == g(files[i])
    decreases |files|
  {
    if files != [] {
      var last := |files| - 1;
      var init := files[..last];
      PyOutputsSpec(init, g);
      var tail := if EndsWithPy(files[last].filename) then [g(files[last])] else [];
      assert PyOutputs(files, g) == PyOutputs(init, g) + tail;
      forall o ensures o in PyOutputs(files, g) <==> exists i :: 0 <= i < |files| && EndsWithPy(files[i].filename) && o == g(files[i]) {
        if o in PyOutputs(init, g) {
          var i :| 0 <= i < last && EndsWithPy(init[i].filename) && o == g(init[i]);
          assert files[i] == init[i];
        } else if o in tail {
          assert EndsWithPy(files[last].filename) && o == g(files[last]);
        }
        if exists i :: 0 <= i < |files| && EndsWithPy(files[i].filename) && o == g(files[i]) {
          var i :| 0 <= i < |files| && EndsWithPy(files[i].filename) && o == g(files[i]);
          if i < last {
            assert init[i] == files[i];
          }
        }
      }
    }
  }

  /** `OutputOf` for a file that parsed; a file that did not parse is never written. */
  function Writer(outputDir: string, m: map<string, string>, encrypt: Encryptor, preamble: PreambleBuilder): SourceFile -> OutputFile
  {
    (f: SourceFile) => if f.source.Parsed? then OutputOf(f, outputDir, m, encrypt, preamble) else OutputFile([], [])
  }

  lemma {:induction false} OutputsArePyOutputs(files: seq<SourceFile>, outputDir: string, m: map<string, string>, encrypt: Encryptor, preamble: PreambleBuilder)
    requires AllParsed(files)
    ensures Outputs(files, outputDir, m, encrypt, preamble) == PyOutputs(files, Writer(outputDir, m, encrypt, preamble))
    decreases |files|
  {
    if files != [] {
      OutputsArePyOutputs(files[..|files| - 1], outputDir, m, encrypt, preamble);
    }
  }

  /** Exactly the `.py` files are written, each to its own path, each transformed with the same map. */
  lemma OutputsSpec(files: seq<SourceFile>, outputDir: string, m: map<string, string>, encrypt: Encryptor, preamble: PreambleBuilder)
    requires AllParsed(files)
    ensures forall o :: o in Outputs(files, outputDir, m, encrypt, preamble) <==>
      exists i :: 0 <= i < |files| && IsParsedPython(files[i]) && o == OutputOf(files[i], outputDir, m, encrypt, preamble)
  {
    var g := Writer(outputDir, m, encrypt, preamble);
    OutputsArePyOutputs(files, outputDir, m, encrypt, preamble);
    PyOutputsSpec(files, g);
    assert forall i :: 0 <= i < |files| && EndsWithPy(files[i].filename) ==> g(files[i]) == OutputOf(files[i], outputDir, m, encrypt, preamble);
  }

  /**
   * The one global map ties files together: a name collected from any file is
   * a key, and wherever it appears in a renamable position in any `.py` file
   * it is replaced there by that key's one generated name.
   */
  lemma ConsistentAcrossFiles(files: seq<SourceFile>, draw: Oracle, i: nat, j: nat, x: string, role: Role)
    requires ValidOracle(draw) && ProjectNames(files).Ok?
    requires i < |files| && IsParsedPython(files[i]) && x in CollectedAll(files[i].source.body)
    requires j < |files| && IsParsedPython(files[j]) && Site(role, x) in SitesAll(files[j].source.body)
    requires role in GlobalRenamedRoles
    ensures var m := CreateRenameMap(ProjectNames(files).value, draw);
      x in m && IsGeneratedName(m[x], NameLength) &&
      Site(role, m[x]) in SitesAll(GlobalRenamerAll(m, files[j].source.body))
    ensures var m := CreateRenameMap(ProjectNames(files).value, draw);
      GlobalRenamerAll(m, files[j].source.body) == RelabelAll(files[j].source.body, GlobalRule(m)) &&
      GlobalRule(m)(role, x) == m[x]
  {
    ProjectNamesSpec(files);
    var m := CreateRenameMap(ProjectNames(files).value, draw);
    var body := files[j].source.body;
    GlobalRenamerAllIsRelabel(m, body);
    RelabelAllSites(body, GlobalRule(m));
    var s := Site(role, x);
    assert Site(s.role, GlobalRule(m)(s.role, s.text)) in Image(SitesAll(body), GlobalRule(m));
  }
}
