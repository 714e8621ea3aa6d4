/**
 * The fragment of Python's abstract syntax tree that PyCloak's renaming passes
 * look at, together with two views of a tree that the passes are specified
 * against:
 *  - `Sites`: every identifier-like string stored in the tree, tagged with the
 *    role (the field) it sits in;
 *  - `Relabel`: the tree obtained by rewriting every such string through a
 *    rule that may depend on the role, leaving the shape, the node kinds, the
 *    constants and the order of everything untouched.
 * A module (what `ast.parse` returns) is represented by its body, a `seq<Node>`.
 */
module PyAst {

  datatype Option<T> = None | Some(value: T)

  /** One `name as asname` entry of a `from module import ...` statement. */
  datatype Alias = Alias(name: string, asname: Option<string>)

  /**
   * `args` are the positional parameters (`node.args.args`); `otherArgs` the
   * remaining parameter names (positional-only, `*args`, keyword-only,
   * `**kwargs`); `header` every expression hanging off the definition outside
   * its body (decorators, defaults, annotations, the return annotation).
   * `bases` of a class also holds its keywords and decorators. `Other` stands
   * for every remaining node kind: its `kind` tag, the plain strings it stores
   * (names in `import x as y`, `global`, keyword-argument names, ...) and its
   * child nodes.
   */
  datatype Node =
    | FunctionDef(name: string, args: seq<string>, otherArgs: seq<string>, header: seq<Node>, body: seq<Node>)
    | AsyncFunctionDef(name: string, args: seq<string>, otherArgs: seq<string>, header: seq<Node>, body: seq<Node>)
    | ClassDef(name: string, bases: seq<Node>, body: seq<Node>)
    | Name(id: string)
    | Attribute(value: Node, attr: string)
    | ImportFrom(moduleName: Option<string>, names: seq<Alias>)
    | Assign(targets: seq<Node>, value: Node)
    | Const(literal: string)
    | Other(kind: string, fields: seq<string>, children: seq<Node>)

  /** The field an identifier-like string occupies. */
  datatype Role =
    | FunctionName | AsyncFunctionName | ClassName | NameId | AttributeName
    | ImportedName | ImportAsname | ImportModule | Param | OtherParam | Field

  datatype Site = Site(role: Role, text: string)

  /** A rewrite of identifier-like strings that may depend on their role. */
  type Rule = (Role, string) -> string

  // ---------------------------------------------------------------------
  // Sites

  function StringSites(ss: seq<string>, role: Role): set<Site>
  {
    set s | s in ss :: Site(role, s)
  }

  function OptionSites(o: Option<string>, role: Role): set<Site>
  {
    if o.Some? then {Site(role, o.value)} else {}
  }

  function AliasSites(aliases: seq<Alias>): set<Site>
  {
    (set a | a in aliases :: Site(ImportedName, a.name)) +
    (set a | a in aliases && a.asname.Some? :: Site(ImportAsname, a.asname.value))
  }

  /** Every identifier-like string of `n` and its descendants, with its role. */
  function Sites(n: Node): set<Site>
  {
    match n
    case FunctionDef(name, args, otherArgs, header, body) =>
      {Site(FunctionName, name)} + StringSites(args, Param) + StringSites(otherArgs, OtherParam)
      + SitesAll(header) + SitesAll(body)
    case AsyncFunctionDef(name, args, otherArgs, header, body) =>
      {Site(AsyncFunctionName, name)} + StringSites(args, Param) + StringSites(otherArgs, OtherParam)
      + SitesAll(header) + SitesAll(body)
    case ClassDef(name, bases, body) => {Site(ClassName, name)} + SitesAll(bases) + SitesAll(body)
    case Name(id) => {Site(NameId, id)}
    case Attribute(value, attr) => Sites(value) + {Site(AttributeName, attr)}
    case ImportFrom(moduleName, names) => OptionSites(moduleName, ImportModule) + AliasSites(names)
    case Assign(targets, value) => SitesAll(targets) + Sites(value)
    case Const(_) => {}
    case Other(_, fields, children) => StringSites(fields, Field) + SitesAll(children)
  }

  function SitesAll(ns: seq<Node>): set<Site>
  {
    if ns == [] then {} else SitesAll(ns[..|ns| - 1]) + Sites(ns[|ns| - 1])
  }

  /** The texts of the sites of `n` that have one of the given roles. */
  function TextsWithRole(sites: set<Site>, roles: set<Role>): set<string>
  {
    set s | s in sites && s.role in roles :: s.text
  }

  lemma {:induction false} SitesAllContains(ns: seq<Node>, i: nat)
    requires i < |ns|
    ensures Sites(ns[i]) <= SitesAll(ns)
    decreases |ns|
  {
    if i < |ns| - 1 {
      SitesAllContains(ns[..|ns| - 1], i);
    }
  }

  /** A site of a sequence of nodes is a site of one of them. */
  lemma {:induction false} SitesAllMember(ns: seq<Node>, s: Site)
    requires s in SitesAll(ns)
    ensures exists i :: 0 <= i < |ns| && s in Sites(ns[i])
    decreases |ns|
  {
    var last := |ns| - 1;
    if s !in Sites(ns[last]) {
      SitesAllMember(ns[..last], s);
      var i :| 0 <= i < last && s in Sites(ns[..last][i]);
      assert s in Sites(ns[i]);
    }
  }

  // ---------------------------------------------------------------------
  // Relabel

  function RelabelStrings(ss: seq<string>, role: Role, rule: Rule): (r: seq<string>)
    ensures |r| == |ss|
  {
    seq(|ss|, i requires 0 <= i < |ss| => rule(role, ss[i]))
  }

  function RelabelOption(o: Option<string>, role: Role, rule: Rule): Option<string>
  {
    if o.Some? then Some(rule(role, o.value)) else None
  }

  function RelabelAlias(a: Alias, rule: Rule): Alias
  {
    Alias(rule(ImportedName, a.name), RelabelOption(a.asname, ImportAsname, rule))
  }

  /** `n` with every site's text rewritten by `rule` and nothing else changed. */
  function Relabel(n: Node, rule: Rule): Node
  {
    match n
    case FunctionDef(name, args, otherArgs, header, body) =>
      FunctionDef(rule(FunctionName, name), RelabelStrings(args, Param, rule),
                  RelabelStrings(otherArgs, OtherParam, rule), RelabelAll(header, rule), RelabelAll(body, rule))
    case AsyncFunctionDef(name, args, otherArgs, header, body) =>
      AsyncFunctionDef(rule(AsyncFunctionName, name), RelabelStrings(args, Param, rule),
                       RelabelStrings(otherArgs, OtherParam, rule), RelabelAll(header, rule), RelabelAll(body, rule))
    case ClassDef(name, bases, body) =>
      ClassDef(rule(ClassName, name), RelabelAll(bases, rule), RelabelAll(body, rule))
    case Name(id) => Name(rule(NameId, id))
    case Attribute(value, attr) => Attribute(Relabel(value, rule), rule(AttributeName, attr))
    case ImportFrom(moduleName, names) =>
      ImportFrom(RelabelOption(moduleName, ImportModule, rule),
                 seq(|names|, i requires 0 <= i < |names| => RelabelAlias(names[i], rule)))
    case Assign(targets, value) => Assign(RelabelAll(targets, rule), Relabel(value, rule))
    case Const(_) => n
    case Other(kind, fields, children) => Other(kind, RelabelStrings(fields, Field, rule), RelabelAll(children, rule))
  }

  function RelabelAll(ns: seq<Node>, rule: Rule): (r: seq<Node>)
    ensures |r| == |ns|
  {
    seq(|ns|, i requires 0 <= i < |ns| => Relabel(ns[i], rule))
  }

  /** The sites `rule` turns `sites` into. */
  function Image(sites: set<Site>, rule: Rule): set<Site>
  {
    set s | s in sites :: Site(s.role, rule(s.role, s.text))
  }

  /** `rule` leaves the text of each of `sites` as it is. */
  ghost predicate Fixes(sites: set<Site>, rule: Rule)
  {
    forall s :: s in sites ==> rule(s.role, s.text) == s.text
  }

  /** On `sites`, applying `first` and then `second` is the same as applying `both`. */
  ghost predicate ComposesTo(sites: set<Site>, first: Rule, second: Rule, both: Rule)
  {
    forall s :: s in sites ==> second(s.role, first(s.role, s.text)) == both(s.role, s.text)
  }

  lemma RelabelAllPrefix(ns: seq<Node>, rule: Rule)
    requires ns != []
    ensures RelabelAll(ns, rule)[..|ns| - 1] == RelabelAll(ns[..|ns| - 1], rule)
  {
  }

  lemma ImageUnion(a: set<Site>, b: set<Site>, rule: Rule)
    ensures Image(a + b, rule) == Image(a, rule) + Image(b, rule)
  {
  }

  /** The sites of a definition (function or async function) in terms of its parts. */
  lemma DefinitionSites(head: Site, args: seq<string>, otherArgs: seq<string>, header: seq<Node>, body: seq<Node>,
                        rargs: seq<string>, rother: seq<string>, rheader: seq<Node>, rbody: seq<Node>, rule: Rule)
    requires StringSites(rargs, Param) == Image(StringSites(args, Param), rule)
    requires StringSites(rother, OtherParam) == Image(StringSites(otherArgs, OtherParam), rule)
    requires SitesAll(rheader) == Image(SitesAll(header), rule)
    requires SitesAll(rbody) == Image(SitesAll(body), rule)
    ensures {Site(head.role, rule(head.role, head.text))} + StringSites(rargs, Param) + StringSites(rother, OtherParam)
            + SitesAll(rheader) + SitesAll(rbody)
         == Image({head} + StringSites(args, Param) + StringSites(otherArgs, OtherParam) + SitesAll(header) + SitesAll(body), rule)
  {
    var a := {head} + StringSites(args, Param);
    var b := a + StringSites(otherArgs, OtherParam);
    var c := b + SitesAll(header);
    ImageUnion({head}, StringSites(args, Param), rule);
    ImageUnion(a, StringSites(otherArgs, OtherParam), rule);
    ImageUnion(b, SitesAll(header), rule);
    ImageUnion(c, SitesAll(body), rule);
  }

  /** The sites of a relabelled tree are the rule's image of the original sites. */
  lemma {:induction false} RelabelSites(n: Node, rule: Rule)
    ensures Sites(Relabel(n, rule)) == Image(Sites(n), rule)
    decreases n, 1
  {
    match n
    case FunctionDef(name, args, otherArgs, header, body) =>
      RelabelAllSites(header, rule);
      RelabelAllSites(body, rule);
      RelabelStringSites(args, Param, rule);
      RelabelStringSites(otherArgs, OtherParam, rule);
      DefinitionSites(Site(FunctionName, name), args, otherArgs, header, body,
                      RelabelStrings(args, Param, rule), RelabelStrings(otherArgs, OtherParam, rule),
                      RelabelAll(header, rule), RelabelAll(body, rule), rule);
    case AsyncFunctionDef(name, args, otherArgs, header, body) =>
      RelabelAllSites(header, rule);
      RelabelAllSites(body, rule);
      RelabelStringSites(args, Param, rule);
      RelabelStringSites(otherArgs, OtherParam, rule);
      DefinitionSites(Site(AsyncFunctionName, name), args, otherArgs, header, body,
                      RelabelStrings(args, Param, rule), RelabelStrings(otherArgs, OtherParam, rule),
                      RelabelAll(header, rule), RelabelAll(body, rule), rule);
    case ClassDef(name, bases, body) =>
      RelabelAllSites(bases, rule);
      RelabelAllSites(body, rule);
      ImageUnion({Site(ClassName, name)}, SitesAll(bases), rule);
      ImageUnion({Site(ClassName, name)} + SitesAll(bases), SitesAll(body), rule);
    case Name(id) =>
    case Attribute(value, attr) =>
      RelabelSites(value, rule);
      ImageUnion(Sites(value), {Site(AttributeName, attr)}, rule);
    case ImportFrom(moduleName, names) =>
      RelabelAliasSites(names, rule);
      ImageUnion(OptionSites(moduleName, ImportModule), AliasSites(names), rule);
    case Assign(targets, value) =>
      RelabelAllSites(targets, rule);
      RelabelSites(value, rule);
      ImageUnion(SitesAll(targets), Sites(value), rule);
    case Const(_) =>
    case Other(kind, fields, children) =>
      RelabelStringSites(fields, Field, rule);
      RelabelAllSites(children, rule);
      ImageUnion(StringSites(fields, Field), SitesAll(children), rule);
  }

  lemma {:induction false} RelabelAllSites(ns: seq<Node>, rule: Rule)
    ensures SitesAll(RelabelAll(ns, rule)) == Image(SitesAll(ns), rule)
    decreases ns, 0
  {
    if ns != [] {
      var last := |ns| - 1;
      RelabelAllPrefix(ns, rule);
      RelabelAllSites(ns[..last], rule);
      RelabelSites(ns[last], rule);
      ImageUnion(SitesAll(ns[..last]), Sites(ns[last]), rule);
    }
  }

  lemma RelabelStringSites(ss: seq<string>, role: Role, rule: Rule)
    ensures StringSites(RelabelStrings(ss, role, rule), role) == Image(StringSites(ss, role), rule)
  {
    var l := StringSites(RelabelStrings(ss, role, rule), role);
    var r := Image(StringSites(ss, role), rule);
    forall s | s in l ensures s in r {
      var i :| 0 <= i < |ss| && s == Site(role, rule(role, ss[i]));
      assert Site(role, ss[i]) in StringSites(ss, role);
    }
    forall s | s in r ensures s in l {
      var t :| t in StringSites(ss, role) && s == Site(t.role, rule(t.role, t.text));
      var i :| 0 <= i < |ss| && t.text == ss[i];
      assert RelabelStrings(ss, role, rule)[i] == rule(role, ss[i]);
    }
  }

  lemma RelabelAliasSites(names: seq<Alias>, rule: Rule)
    ensures AliasSites(seq(|names|, i requires 0 <= i < |names| => RelabelAlias(names[i], rule)))
         == Image(AliasSites(names), rule)
  {
    var renamed := seq(|names|, i requires 0 <= i < |names| => RelabelAlias(names[i], rule));
    var l := AliasSites(renamed);
    var r := Image(AliasSites(names), rule);
    forall s | s in l ensures s in r {
      var i :| 0 <= i < |renamed| && (s == Site(ImportedName, renamed[i].name)
                                      || (renamed[i].asname.Some? && s == Site(ImportAsname, renamed[i].asname.value)));
      assert names[i] in names;
      if s == Site(ImportedName, renamed[i].name) {
        assert Site(ImportedName, names[i].name) in AliasSites(names);
      } else {
        assert Site(ImportAsname, names[i].asname.value) in AliasSites(names);
      }
    }
    forall s | s in r ensures s in l {
      var t :| t in AliasSites(names) && s == Site(t.role, rule(t.role, t.text));
      var i :| 0 <= i < |names| && (t == Site(ImportedName, names[i].name)
                                    || (names[i].asname.Some? && t == Site(ImportAsname, names[i].asname.value)));
      assert renamed[i] in renamed;
    }
  }

  /** Relabelling twice is relabelling once with the composed rule. */
  lemma {:induction false} RelabelCompose(n: Node, first: Rule, second: Rule, both: Rule)
    requires ComposesTo(Sites(n), first, second, both)
    ensures Relabel(Relabel(n, first), second) == Relabel(n, both)
    decreases n, 1
  {
    match n
    case FunctionDef(name, args, otherArgs, header, body) =>
      RelabelAllCompose(header, first, second, both);
      RelabelAllCompose(body, first, second, both);
      RelabelStringsCompose(args, Param, first, second, both, Sites(n));
      RelabelStringsCompose(otherArgs, OtherParam, first, second, both, Sites(n));
    case AsyncFunctionDef(name, args, otherArgs, header, body) =>
      RelabelAllCompose(header, first, second, both);
      RelabelAllCompose(body, first, second, both);
      RelabelStringsCompose(args, Param, first, second, both, Sites(n));
      RelabelStringsCompose(otherArgs, OtherParam, first, second, both, Sites(n));
    case ClassDef(name, bases, body) =>
      RelabelAllCompose(bases, first, second, both);
      RelabelAllCompose(body, first, second, both);
    case Name(id) =>
    case Attribute(value, attr) =>
      RelabelCompose(value, first, second, both);
    case ImportFrom(moduleName, names) =>
      var once := seq(|names|, i requires 0 <= i < |names| => RelabelAlias(names[i], first));
      var twice := seq(|once|, i requires 0 <= i < |once| => RelabelAlias(once[i], second));
      var direct := seq(|names|, i requires 0 <= i < |names| => RelabelAlias(names[i], both));
      forall i | 0 <= i < |names| ensures twice[i] == direct[i] {
        assert names[i] in names;
        assert Site(ImportedName, names[i].name) in AliasSites(names);
        if names[i].asname.Some? {
          assert Site(ImportAsname, names[i].asname.value) in AliasSites(names);
        }
      }
      assert twice == direct;
    case Assign(targets, value) =>
      RelabelAllCompose(targets, first, second, both);
      RelabelCompose(value, first, second, both);
    case Const(_) =>
    case Other(kind, fields, children) =>
      RelabelStringsCompose(fields, Field, first, second, both, Sites(n));
      RelabelAllCompose(children, first, second, both);
  }

  lemma {:induction false} RelabelAllCompose(ns: seq<Node>, first: Rule, second: Rule, both: Rule)
    requires ComposesTo(SitesAll(ns), first, second, both)
    ensures RelabelAll(RelabelAll(ns, first), second) == RelabelAll(ns, both)
    decreases ns, 0
  {
    forall i | 0 <= i < |ns|
      ensures RelabelAll(RelabelAll(ns, first), second)[i] == RelabelAll(ns, both)[i]
    {
      SitesAllContains(ns, i);
      RelabelCompose(ns[i], first, second, both);
    }
  }

  lemma RelabelStringsCompose(ss: seq<string>, role: Role, first: Rule, second: Rule, both: Rule, sites: set<Site>)
    requires StringSites(ss, role) <= sites
    requires ComposesTo(sites, first, second, both)
    ensures RelabelStrings(RelabelStrings(ss, role, first), role, second) == RelabelStrings(ss, role, both)
  {
    forall i | 0 <= i < |ss|
      ensures RelabelStrings(RelabelStrings(ss, role, first), role, second)[i] == RelabelStrings(ss, role, both)[i]
    {
      assert Site(role, ss[i]) in StringSites(ss, role);
    }
  }

  /** A rule that changes none of a tree's sites leaves the tree as it is. */
  lemma {:induction false} RelabelFixes(n: Node, rule: Rule)
    requires Fixes(Sites(n), rule)
    ensures Relabel(n, rule) == n
    decreases n, 1
  {
    match n
    case FunctionDef(name, args, otherArgs, header, body) =>
      RelabelAllFixes(header, rule);
      RelabelAllFixes(body, rule);
      RelabelStringsFixes(args, Param, rule, Sites(n));
      RelabelStringsFixes(otherArgs, OtherParam, rule, Sites(n));
    case AsyncFunctionDef(name, args, otherArgs, header, body) =>
      RelabelAllFixes(header, rule);
      RelabelAllFixes(body, rule);
      RelabelStringsFixes(args, Param, rule, Sites(n));
      RelabelStringsFixes(otherArgs, OtherParam, rule, Sites(n));
    case ClassDef(name, bases, body) =>
      RelabelAllFixes(bases, rule);
      RelabelAllFixes(body, rule);
    case Name(id) =>
    case Attribute(value, attr) =>
      RelabelFixes(value, rule);
    case ImportFrom(moduleName, names) =>
      var renamed := seq(|names|, i requires 0 <= i < |names| => RelabelAlias(names[i], rule));
      forall i | 0 <= i < |names| ensures renamed[i] == names[i] {
        assert names[i] in names;
        assert Site(ImportedName, names[i].name) in AliasSites(names);
        if names[i].asname.Some? {
          assert Site(ImportAsname, names[i].asname.value) in AliasSites(names);
        }
      }
      assert renamed == names;
    case Assign(targets, value) =>
      RelabelAllFixes(targets, rule);
      RelabelFixes(value, rule);
    case Const(_) =>
    case Other(kind, fields, children) =>
      RelabelStringsFixes(fields, Field, rule, Sites(n));
      RelabelAllFixes(children, rule);
  }

  lemma {:induction false} RelabelAllFixes(ns: seq<Node>, rule: Rule)
    requires Fixes(SitesAll(ns), rule)
    ensures RelabelAll(ns, rule) == ns
    decreases ns, 0
  {
    forall i | 0 <= i < |ns| ensures RelabelAll(ns, rule)[i] == ns[i] {
      SitesAllContains(ns, i);
      RelabelFixes(ns[i], rule);
    }
  }

  lemma RelabelStringsFixes(ss: seq<string>, role: Role, rule: Rule, sites: set<Site>)
    requires StringSites(ss, role) <= sites
    requires Fixes(sites, rule)
    ensures RelabelStrings(ss, role, rule) == ss
  {
    forall i | 0 <= i < |ss| ensures RelabelStrings(ss, role, rule)[i] == ss[i] {
      assert Site(role, ss[i]) in StringSites(ss, role);
    }
  }

  // ---------------------------------------------------------------------
  // Walk

  /** Every node of the tree rooted at `n`, `n` first (what `ast.walk` yields, in another order). */
  function Walk(n: Node): (r: seq<Node>)
    ensures |r| > 0 && r[0] == n
  {
    match n
    case FunctionDef(_, _, _, header, body) => [n] + WalkAll(header) + WalkAll(body)
    case AsyncFunctionDef(_, _, _, header, body) => [n] + WalkAll(header) + WalkAll(body)
    case ClassDef(_, bases, body) => [n] + WalkAll(bases) + WalkAll(body)
    case Name(_) => [n]
    case Attribute(value, _) => [n] + Walk(value)
    case ImportFrom(_, _) => [n]
    case Assign(targets, value) => [n] + WalkAll(targets) + Walk(value)
    case Const(_) => [n]
    case Other(_, _, children) => [n] + WalkAll(children)
  }

  function WalkAll(ns: seq<Node>): seq<Node>
  {
    if ns == [] then [] else WalkAll(ns[..|ns| - 1]) + Walk(ns[|ns| - 1])
  }
}
