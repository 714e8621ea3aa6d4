/**
 * Symbol discovery (src/pycloak/discoverer.py): `NameCollector` gathers the
 * names of the functions and classes it reaches in one tree, and
 * `ProjectDiscoverer.discover` unions those sets over every `.py` file.
 */
module Discoverer {
  import opened PyAst

  /**
   * The names `NameCollector().visit(n)` adds. A function definition adds its
   * name and is visited further, so nested definitions count; a class adds its
   * name and visits only the function definitions directly in its body; an
   * async function definition has no handler, so only its children are visited.
   */
  function Collected(n: Node): set<string>
  {
    match n
    case FunctionDef(name, _, _, header, body) => {name} + CollectedAll(header) + CollectedAll(body)
    case AsyncFunctionDef(_, _, _, header, body) => CollectedAll(header) + CollectedAll(body)
    case ClassDef(name, _, body) => {name} + ClassMethods(body)
    case Name(_) => {}
    case Attribute(value, _) => Collected(value)
    case ImportFrom(_, _) => {}
    case Assign(targets, value) => CollectedAll(targets) + Collected(value)
    case Const(_) => {}
    case Other(_, _, children) => CollectedAll(children)
  }

  function CollectedAll(ns: seq<Node>): set<string>
  {
    if ns == [] then {} else CollectedAll(ns[..|ns| - 1]) + Collected(ns[|ns| - 1])
  }

  /** What the loop over a class body adds: the names collected from its `FunctionDef` items. */
  function ClassMethods(items: seq<Node>): set<string>
  {
    if items == [] then {}
    else ClassMethods(items[..|items| - 1]) + (if items[|items| - 1].FunctionDef? then Collected(items[|items| - 1]) else {})
  }

  class NameCollector {
    var definedNames: set<string>

    constructor()
      ensures definedNames == {}
    {
      definedNames := {};
    }

    /** `visit`: dispatches on the node kind; kinds without a handler are visited generically. */
    method Visit(n: Node)
      modifies this
      ensures definedNames == old(definedNames) + Collected(n)
      decreases n, 2
    {
      match n
      case FunctionDef(_, _, _, _, _) => VisitFunctionDef(n);
      case AsyncFunctionDef(_, _, _, header, body) =>
        VisitAll(header);
        VisitAll(body);
      case ClassDef(_, _, _) => VisitClassDef(n);
      case Name(_) =>
      case Attribute(value, _) => Visit(value);
      case ImportFrom(_, _) =>
      case Assign(targets, value) =>
        VisitAll(targets);
        Visit(value);
      case Const(_) =>
      case Other(_, _, children) => VisitAll(children);
    }

    method VisitFunctionDef(n: Node)
      requires n.FunctionDef?
      modifies this
      ensures definedNames == old(definedNames) + Collected(n)
      decreases n, 1
    {
      definedNames := definedNames + {n.name};
      VisitAll(n.header);
      VisitAll(n.body);
    }

    method VisitClassDef(n: Node)
      requires n.ClassDef?
      modifies this
      ensures definedNames == old(definedNames) + Collected(n)
      decreases n, 1
    {
      definedNames := definedNames + {n.name};
      for i := 0 to |n.body|
        invariant definedNames == old(definedNames) + {n.name} + ClassMethods(n.body[..i])
      {
        assert n.body[..i + 1][..i] == n.body[..i];
        if n.body[i].FunctionDef? {
          VisitFunctionDef(n.body[i]);
        }
      }
      assert n.body[..|n.body|] == n.body;
    }

    /** The generic visit of a list of child nodes (a module body, a function body, ...). */
    method VisitAll(ns: seq<Node>)
      modifies this
      ensures definedNames == old(definedNames) + CollectedAll(ns)
      decreases ns, 0
    {
      for i := 0 to |ns|
        invariant definedNames == old(definedNames) + CollectedAll(ns[..i])
      {
        assert ns[..i + 1][..i] == ns[..i];
        Visit(ns[i]);
      }
      assert ns[..|ns|] == ns;
    }
  }

  // ---------------------------------------------------------------------
  // What gets collected

  /** `x` is the name of a function or class definition among `sites`. */
  predicate Defines(sites: set<Site>, x: string)
  {
    Site(FunctionName, x) in sites || Site(ClassName, x) in sites
  }

  /** Only definition names are collected: never parameters, variables, attributes or imports. */
  lemma {:induction false} CollectedAreDefinitionNames(n: Node)
    ensures forall x :: x in Collected(n) ==> Defines(Sites(n), x)
    decreases n, 1
  {
    match n
    case FunctionDef(name, _, _, header, body) =>
      CollectedAllAreDefinitionNames(header);
      CollectedAllAreDefinitionNames(body);
    case AsyncFunctionDef(_, _, _, header, body) =>
      CollectedAllAreDefinitionNames(header);
      CollectedAllAreDefinitionNames(body);
    case ClassDef(name, _, body) =>
      ClassMethodsAreDefinitionNames(body);
    case Name(_) =>
    case Attribute(value, _) =>
      CollectedAreDefinitionNames(value);
    case ImportFrom(_, _) =>
    case Assign(targets, value) =>
      CollectedAllAreDefinitionNames(targets);
      CollectedAreDefinitionNames(value);
    case Const(_) =>
    case Other(_, _, children) =>
      CollectedAllAreDefinitionNames(children);
  }

  lemma {:induction false} CollectedAllAreDefinitionNames(ns: seq<Node>)
    ensures forall x :: x in CollectedAll(ns) ==> Defines(SitesAll(ns), x)
    decreases ns, 0
  {
    if ns != [] {
      CollectedAllAreDefinitionNames(ns[..|ns| - 1]);
      CollectedAreDefinitionNames(ns[|ns| - 1]);
    }
  }

  /** The generic visit of a list collects exactly what its items collect. */
  lemma {:induction false} CollectedAllSpec(ns: seq<Node>)
    ensures forall x :: x in CollectedAll(ns) <==> exists i :: 0 <= i < |ns| && x in Collected(ns[i])
    decreases |ns|
  {
    if ns != [] {
      var last := |ns| - 1;
      CollectedAllSpec(ns[..last]);
      assert forall i :: 0 <= i < last ==> ns[..last][i] == ns[i];
    }
  }

  lemma {:induction false} ClassMethodsAreDefinitionNames(items: seq<Node>)
    ensures forall x :: x in ClassMethods(items) ==> Defines(SitesAll(items), x)
    decreases items, 0
  {
    if items != [] {
      ClassMethodsAreDefinitionNames(items[..|items| - 1]);
      CollectedAreDefinitionNames(items[|items| - 1]);
    }
  }

  /**
   * The sites of `n` outside every class body: like `Sites`, except that a
   * class contributes only its own name.
   */
  function OpenSites(n: Node): set<Site>
  {
    match n
    case FunctionDef(name, args, otherArgs, header, body) =>
      {Site(FunctionName, name)} + StringSites(args, Param) + StringSites(otherArgs, OtherParam)
      + OpenSitesAll(header) + OpenSitesAll(body)
    case AsyncFunctionDef(name, args, otherArgs, header, body) =>
      {Site(AsyncFunctionName, name)} + StringSites(args, Param) + StringSites(otherArgs, OtherParam)
      + OpenSitesAll(header) + OpenSitesAll(body)
    case ClassDef(name, _, _) => {Site(ClassName, name)}
    case Name(id) => {Site(NameId, id)}
    case Attribute(value, attr) => OpenSites(value) + {Site(AttributeName, attr)}
    case ImportFrom(moduleName, names) => OptionSites(moduleName, ImportModule) + AliasSites(names)
    case Assign(targets, value) => OpenSitesAll(targets) + OpenSites(value)
    case Const(_) => {}
    case Other(_, fields, children) => StringSites(fields, Field) + OpenSitesAll(children)
  }

  function OpenSitesAll(ns: seq<Node>): set<Site>
  {
    if ns == [] then {} else OpenSitesAll(ns[..|ns| - 1]) + OpenSites(ns[|ns| - 1])
  }

  /**
   * Every function or class defined outside all class bodies is collected,
   * however deeply it is nested in functions, async functions or statements.
   */
  lemma {:induction false} CollectsEveryOpenDefinition(n: Node)
    ensures forall x :: Defines(OpenSites(n), x) ==> x in Collected(n)
    decreases n, 1
  {
    match n
    case FunctionDef(_, _, _, header, body) =>
      CollectsEveryOpenDefinitionAll(header);
      CollectsEveryOpenDefinitionAll(body);
    case AsyncFunctionDef(_, _, _, header, body) =>
      CollectsEveryOpenDefinitionAll(header);
      CollectsEveryOpenDefinitionAll(body);
    case ClassDef(_, _, _) =>
    case Name(_) =>
    case Attribute(value, _) =>
      CollectsEveryOpenDefinition(value);
    case ImportFrom(_, _) =>
    case Assign(targets, value) =>
      CollectsEveryOpenDefinitionAll(targets);
      CollectsEveryOpenDefinition(value);
    case Const(_) =>
    case Other(_, _, children) =>
      CollectsEveryOpenDefinitionAll(children);
  }

  lemma {:induction false} CollectsEveryOpenDefinitionAll(ns: seq<Node>)
    ensures forall x :: Defines(OpenSitesAll(ns), x) ==> x in CollectedAll(ns)
    decreases ns, 0
  {
    if ns != [] {
      CollectsEveryOpenDefinitionAll(ns[..|ns| - 1]);
      CollectsEveryOpenDefinition(ns[|ns| - 1]);
    }
  }

  /** The loop over a class body collects exactly what its direct `FunctionDef` items collect. */
  lemma {:induction false} ClassMethodsSpec(items: seq<Node>, x: string)
    ensures x in ClassMethods(items) <==> exists i :: 0 <= i < |items| && items[i].FunctionDef? && x in Collected(items[i])
    decreases |items|
  {
    if items != [] {
      var last := |items| - 1;
      ClassMethodsSpec(items[..last], x);
      assert forall i :: 0 <= i < last ==> items[..last][i] == items[i];
    }
  }

  /**
   * What a class collects: its own name, and every function or class defined
   * in one of its methods outside any further class body, but nothing from a
   * nested class or from a statement of the class body that is not a `def`.
   */
  lemma ClassCollects(n: Node, x: string)
    requires n.ClassDef?
    ensures x in Collected(n) <==>
      x == n.name || exists i :: 0 <= i < |n.body| && n.body[i].FunctionDef? && x in Collected(n.body[i])
    ensures forall i :: 0 <= i < |n.body| && n.body[i].FunctionDef? && Defines(OpenSites(n.body[i]), x) ==> x in Collected(n)
  {
    ClassMethodsSpec(n.body, x);
    forall i | 0 <= i < |n.body| && n.body[i].FunctionDef? && Defines(OpenSites(n.body[i]), x)
      ensures x in Collected(n)
    {
      CollectsEveryOpenDefinition(n.body[i]);
    }
  }

  /**
   * A class body is scanned one level deep: a method and the functions nested in
   * it are collected, but a class nested in the class body, a method of that
   * nested class, and a function defined under a statement of the class body
   * are not.
   */
  lemma ClassBodyScannedOneLevel()
    ensures Collected(
      ClassDef("Outer", [], [
        ClassDef("Inner", [], [FunctionDef("inner_method", ["self"], [], [], [])]),
        Other("If", [], [FunctionDef("conditional", [], [], [], [])]),
        FunctionDef("method", ["self"], [], [], [FunctionDef("helper", [], [], [], [])])
      ])) == {"Outer", "method", "helper"}
  {
    var inner := ClassDef("Inner", [], [FunctionDef("inner_method", ["self"], [], [], [])]);
    var cond := Other("If", [], [FunctionDef("conditional", [], [], [], [])]);
    var helper := FunctionDef("helper", [], [], [], []);
    var meth := FunctionDef("method", ["self"], [], [], [helper]);
    assert Collected(helper) == {"helper"};
    assert CollectedAll([helper]) == {"helper"} by {
      assert [helper][..0] == [];
    }
    assert Collected(meth) == {"method", "helper"};
    var body := [inner, cond, meth];
    assert body[..2] == [inner, cond] && [inner, cond][..1] == [inner] && [inner][..0] == [];
    assert ClassMethods([inner]) == {};
    assert ClassMethods([inner, cond]) == {};
    assert ClassMethods(body) == {"method", "helper"};
  }

  /** An async function's own name is not collected; a function nested in it is. */
  lemma AsyncFunctionNameNotCollected()
    ensures Collected(AsyncFunctionDef("fetch", ["url"], [], [], [FunctionDef("parse", [], [], [], [])])) == {"parse"}
  {
  }

  // ---------------------------------------------------------------------
  // ProjectDiscoverer.discover

  /** What `ast.parse` made of a file's text. */
  datatype Parsed = Parsed(body: seq<Node>) | SyntaxError

  /** A file found by `os.walk`: its directory relative to the project root, its name, its parse. */
  datatype SourceFile = SourceFile(dir: seq<string>, filename: string, source: Parsed)

  datatype Error = ParseError(path: seq<string>)

  datatype Result<T> = Ok(value: T) | Err(error: Error)

  /** `filename.endswith(".py")`. */
  predicate EndsWithPy(filename: string)
  {
    |filename| >= 3 && filename[|filename| - 3..] == ".py"
  }

  /** The result of `discover` over `files`, taken in the order `os.walk` yields them. */
  function ProjectNames(files: seq<SourceFile>): Result<set<string>>
  {
    if files == [] then Ok({})
    else
      var before := ProjectNames(files[..|files| - 1]);
      var f := files[|files| - 1];
      if before.Err? || !EndsWithPy(f.filename) then before
      else if f.source.SyntaxError? then Err(ParseError(f.dir + [f.filename]))
      else Ok(before.value + CollectedAll(f.source.body))
  }

  /** A parse error stops discovery: later files change nothing. */
  lemma {:induction false} ProjectNamesErrorPersists(files: seq<SourceFile>, k: nat)
    requires k <= |files| && ProjectNames(files[..k]).Err?
    ensures ProjectNames(files) == ProjectNames(files[..k])
    decreases |files|
  {
    if k < |files| {
      var last := |files| - 1;
      assert files[..last][..k] == files[..k];
      ProjectNamesErrorPersists(files[..last], k);
    } else {
      assert files[..k] == files;
    }
  }

  /**
   * `ProjectDiscoverer().discover`: a fresh `NameCollector` visits every `.py`
   * file's tree and its names join the result; a file that does not parse
   * aborts discovery.
   */
  method Discover(files: seq<SourceFile>) returns (r: Result<set<string>>)
    ensures r == ProjectNames(files)
  {
    var allNames: set<string> := {};
    for i := 0 to |files|
      invariant ProjectNames(files[..i]) == Ok(allNames)
    {
      assert files[..i + 1][..i] == files[..i];
      var f := files[i];
      assert files[..i + 1][i] == f;
      if EndsWithPy(f.filename) {
        if f.source.SyntaxError? {
          r := Err(ParseError(f.dir + [f.filename]));
          ProjectNamesErrorPersists(files, i + 1);
          return;
        }
        var collector := new NameCollector();
        collector.VisitAll(f.source.body);
        assert collector.definedNames == CollectedAll(f.source.body);
        allNames := allNames + collector.definedNames;
      }
    }
    assert files[..|files|] == files;
    r := Ok(allNames);
  }

  /** `f` is a `.py` file that parsed. */
  predicate IsParsedPython(f: SourceFile)
  {
    EndsWithPy(f.filename) && f.source.Parsed?
  }

  /**
   * Discovery succeeds exactly when every `.py` file parses, and then yields
   * exactly the names collected from some `.py` file.
   */
  lemma {:induction false} ProjectNamesSpec(files: seq<SourceFile>)
    ensures ProjectNames(files).Ok? <==> forall i :: 0 <= i < |files| && EndsWithPy(files[i].filename) ==> files[i].source.Parsed?
    ensures ProjectNames(files).Ok? ==>
      forall x :: x in ProjectNames(files).value <==>
        exists i :: 0 <= i < |files| && IsParsedPython(files[i]) && x in CollectedAll(files[i].source.body)
    decreases |files|
  {
    if files != [] {
      var last := |files| - 1;
      var init := files[..last];
      ProjectNamesSpec(init);
      assert forall i :: 0 <= i < last ==> init[i] == files[i];
      if ProjectNames(files).Ok? {
        forall x | x in ProjectNames(files).value
          ensures exists i :: 0 <= i < |files| && IsParsedPython(files[i]) && x in CollectedAll(files[i].source.body)
        {
          if x !in ProjectNames(init).value {
            assert IsParsedPython(files[last]) && x in CollectedAll(files[last].source.body);
          }
        }
      }
    }
  }

  /** Discovery only adds names: a successful run over `files` succeeds on every prefix with fewer names. */
  lemma {:induction false} ProjectNamesGrow(files: seq<SourceFile>, k: nat)
    requires k <= |files| && ProjectNames(files).Ok?
    ensures ProjectNames(files[..k]).Ok? && ProjectNames(files[..k]).value <= ProjectNames(files).value
    decreases |files|
  {
    if k < |files| {
      var last := |files| - 1;
      assert files[..last][..k] == files[..k];
      ProjectNamesGrow(files[..last], k);
    } else {
      assert files[..k] == files;
    }
  }

  /** The discovered names do not depend on the order in which files are visited. */
  lemma ProjectNamesOrderIndependent(a: seq<SourceFile>, b: seq<SourceFile>)
    requires multiset(a) == multiset(b)
    ensures ProjectNames(a).Ok? == ProjectNames(b).Ok?
    ensures ProjectNames(a).Ok? ==> ProjectNames(a).value == ProjectNames(b).value
  {
    ProjectNamesSpec(a);
    ProjectNamesSpec(b);
    forall i | 0 <= i < |a| ensures exists j :: 0 <= j < |b| && b[j] == a[i] {
      assert a[i] in multiset(b);
    }
    forall j | 0 <= j < |b| ensures exists i :: 0 <= i < |a| && a[i] == b[j] {
      assert b[j] in multiset(a);
    }
  }
}
