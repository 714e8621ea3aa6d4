/**
 * The tree rewrites of PyCloak (src/pycloak/transformers.py): the random name
 * generator, the project-wide `GlobalRenamer`, the `NameApplier` it shares a
 * shape with, and the per-function `LocalVariableRenamer`.
 *
 * Each rewrite is specified against `PyAst.Relabel`: it is proved equal to a
 * relabelling whose rule says, role by role, which strings are rewritten.
 */
module Transformers {
  import opened PyAst

  // ---------------------------------------------------------------------
  // generate_random_name

  /** `n` consecutive characters starting at `base`. */
  function CharRange(base: char, n: nat): (r: string)
    requires base as int + n <= 0xD800
    ensures |r| == n && forall i :: 0 <= i < n ==> r[i] as int == base as int + i
  {
    seq(n, i requires 0 <= i < n => (base as int + i) as char)
  }

  /** `string.ascii_lowercase`, `string.ascii_uppercase` and `string.digits`. */
  const AsciiLowercase: string := CharRange('a', 26)
  const AsciiUppercase: string := CharRange('A', 26)
  const Digits: string := CharRange('0', 10)

  /** The characters `random.choice` draws from: `ascii_letters + digits`. */
  const Alphabet: string := AsciiLowercase + AsciiUppercase + Digits

  /** The default `length` of `generate_random_name`, the one every caller uses. */
  const NameLength: nat := 4

  predicate IsAsciiAlnum(c: char)
  {
    'a' <= c <= 'z' || 'A' <= c <= 'Z' || '0' <= c <= '9'
  }

  /** The shape of a generated name: `_` followed by `length` ASCII letters or digits. */
  predicate IsGeneratedName(s: string, length: nat)
  {
    |s| == length + 1 && s[0] == '_' && forall i :: 1 <= i < |s| ==> IsAsciiAlnum(s[i])
  }

  /** What `random.choice` returned for each of `length` characters, as indices into `Alphabet`. */
  predicate ValidPicks(picks: seq<nat>, length: nat)
  {
    |picks| == length && forall i :: 0 <= i < |picks| ==> picks[i] < |Alphabet|
  }

  lemma AlphabetIsAlnum()
    ensures |Alphabet| == 62
    ensures forall i :: 0 <= i < |Alphabet| ==> IsAsciiAlnum(Alphabet[i])
  {
  }

  /** The position of an ASCII letter or digit in `Alphabet`. */
  function AlphabetIndex(c: char): (k: nat)
    requires IsAsciiAlnum(c)
    ensures k < |Alphabet| && Alphabet[k] == c
  {
    if 'a' <= c <= 'z' then c as int - 'a' as int
    else if 'A' <= c <= 'Z' then 26 + (c as int - 'A' as int)
    else 52 + (c as int - '0' as int)
  }

  /** No character occurs twice in `Alphabet`. */
  lemma AlphabetIndexOf(k: nat)
    requires k < |Alphabet|
    ensures IsAsciiAlnum(Alphabet[k]) && AlphabetIndex(Alphabet[k]) == k
  {
    AlphabetIsAlnum();
  }

  /**
   * `generate_random_name(length)`: an underscore followed by `length`
   * characters drawn from `Alphabet`; the draws are the parameter `picks`.
   */
  function GenerateRandomName(length: nat, picks: seq<nat>): (r: string)
    requires ValidPicks(picks, length)
    ensures IsGeneratedName(r, length)
  {
    AlphabetIsAlnum();
    "_" + seq(length, i requires 0 <= i < length => Alphabet[picks[i]])
  }

  /** Different draws give different names. */
  lemma GenerateRandomNameInjective(length: nat, p: seq<nat>, q: seq<nat>)
    requires ValidPicks(p, length) && ValidPicks(q, length)
    requires GenerateRandomName(length, p) == GenerateRandomName(length, q)
    ensures p == q
  {
    forall i | 0 <= i < length ensures p[i] == q[i] {
      assert GenerateRandomName(length, p)[i + 1] == Alphabet[p[i]];
      assert GenerateRandomName(length, q)[i + 1] == Alphabet[q[i]];
      AlphabetIndexOf(p[i]);
      AlphabetIndexOf(q[i]);
    }
  }

  /** Every name of the generated shape is produced by some draws. */
  lemma EveryShapedNameIsGenerated(s: string, length: nat)
    requires IsGeneratedName(s, length)
    ensures exists picks :: ValidPicks(picks, length) && GenerateRandomName(length, picks) == s
  {
    var picks := seq(length, i requires 0 <= i < length => AlphabetIndex(s[i + 1]));
    assert ValidPicks(picks, length);
    assert GenerateRandomName(length, picks) == s;
  }

  /**
   * The source of randomness: the draws made for a name. It is keyed by the
   * name being renamed rather than by the order of the calls.
   */
  type Oracle = string -> seq<nat>

  ghost predicate ValidOracle(draw: Oracle)
  {
    forall s :: ValidPicks(draw(s), NameLength)
  }

  // ---------------------------------------------------------------------
  // GlobalRenamer

  function RenameIfKey(m: map<string, string>, s: string): string
  {
    if s in m then m[s] else s
  }

  /** The fields `GlobalRenamer` has a visit method for. */
  const GlobalRenamedRoles: set<Role> := {FunctionName, ClassName, NameId, AttributeName, ImportedName}

  function GlobalRule(m: map<string, string>): Rule
  {
    (role: Role, s: string) => if role in GlobalRenamedRoles then RenameIfKey(m, s) else s
  }

  /**
   * `GlobalRenamer(m).visit(n)`: definition names, `Name` ids, attribute names
   * and imported names are renamed when they are keys of `m`; every other node
   * is visited generically, so only its children change.
   */
  function GlobalRenamer(m: map<string, string>, n: Node): Node
  {
    match n
    case FunctionDef(name, args, otherArgs, header, body) =>
      FunctionDef(RenameIfKey(m, name), args, otherArgs, GlobalRenamerAll(m, header), GlobalRenamerAll(m, body))
    case AsyncFunctionDef(name, args, otherArgs, header, body) =>
      AsyncFunctionDef(name, args, otherArgs, GlobalRenamerAll(m, header), GlobalRenamerAll(m, body))
    case ClassDef(name, bases, body) =>
      ClassDef(RenameIfKey(m, name), GlobalRenamerAll(m, bases), GlobalRenamerAll(m, body))
    case Name(id) => Name(RenameIfKey(m, id))
    case Attribute(value, attr) => Attribute(GlobalRenamer(m, value), RenameIfKey(m, attr))
    case ImportFrom(moduleName, names) =>
      ImportFrom(moduleName, seq(|names|, i requires 0 <= i < |names| => Alias(RenameIfKey(m, names[i].name), names[i].asname)))
    case Assign(targets, value) => Assign(GlobalRenamerAll(m, targets), GlobalRenamer(m, value))
    case Const(_) => n
    case Other(kind, fields, children) => Other(kind, fields, GlobalRenamerAll(m, children))
  }

  function GlobalRenamerAll(m: map<string, string>, ns: seq<Node>): (r: seq<Node>)
    ensures |r| == |ns|
  {
    seq(|ns|, i requires 0 <= i < |ns| => GlobalRenamer(m, ns[i]))
  }

  lemma UntouchedStrings(ss: seq<string>, role: Role, rule: Rule)
    requires forall s :: rule(role, s) == s
    ensures RelabelStrings(ss, role, rule) == ss
  {
  }

  /** `GlobalRenamer` is the relabelling by `GlobalRule`. */
  lemma {:induction false} GlobalRenamerIsRelabel(m: map<string, string>, n: Node)
    ensures GlobalRenamer(m, n) == Relabel(n, GlobalRule(m))
    decreases n, 1
  {
    var rule := GlobalRule(m);
    match n
    case FunctionDef(name, args, otherArgs, header, body) =>
      GlobalRenamerAllIsRelabel(m, header);
      GlobalRenamerAllIsRelabel(m, body);
      UntouchedStrings(args, Param, rule);
      UntouchedStrings(otherArgs, OtherParam, rule);
    case AsyncFunctionDef(name, args, otherArgs, header, body) =>
      GlobalRenamerAllIsRelabel(m, header);
      GlobalRenamerAllIsRelabel(m, body);
      UntouchedStrings(args, Param, rule);
      UntouchedStrings(otherArgs, OtherParam, rule);
    case ClassDef(name, bases, body) =>
      GlobalRenamerAllIsRelabel(m, bases);
      GlobalRenamerAllIsRelabel(m, body);
    case Name(id) =>
    case Attribute(value, attr) =>
      GlobalRenamerIsRelabel(m, value);
    case ImportFrom(moduleName, names) =>
      var renamed := seq(|names|, i requires 0 <= i < |names| => Alias(RenameIfKey(m, names[i].name), names[i].asname));
      var relabelled := seq(|names|, i requires 0 <= i < |names| => RelabelAlias(names[i], rule));
      assert renamed == relabelled;
    case Assign(targets, value) =>
      GlobalRenamerAllIsRelabel(m, targets);
      GlobalRenamerIsRelabel(m, value);
    case Const(_) =>
    case Other(kind, fields, children) =>
      GlobalRenamerAllIsRelabel(m, children);
      UntouchedStrings(fields, Field, rule);
  }

  lemma {:induction false} GlobalRenamerAllIsRelabel(m: map<string, string>, ns: seq<Node>)
    ensures GlobalRenamerAll(m, ns) == RelabelAll(ns, GlobalRule(m))
    decreases ns, 0
  {
    forall i | 0 <= i < |ns| ensures GlobalRenamerAll(m, ns)[i] == RelabelAll(ns, GlobalRule(m))[i] {
      GlobalRenamerIsRelabel(m, ns[i]);
    }
  }

  /**
   * After `GlobalRenamer`, the definition names, `Name` ids, attribute names and
   * imported names are the renamed originals; async function names, import
   * `asname`s, module names, parameters and every other string are exactly the
   * originals.
   */
  lemma GlobalRenamerSites(m: map<string, string>, n: Node, role: Role)
    ensures role in GlobalRenamedRoles ==>
      TextsWithRole(Sites(GlobalRenamer(m, n)), {role}) == set x | x in TextsWithRole(Sites(n), {role}) :: RenameIfKey(m, x)
    ensures role !in GlobalRenamedRoles ==>
      TextsWithRole(Sites(GlobalRenamer(m, n)), {role}) == TextsWithRole(Sites(n), {role})
  {
    GlobalRenamerIsRelabel(m, n);
    RelabelSites(n, GlobalRule(m));
    ImageTexts(Sites(n), GlobalRule(m), role);
  }

  lemma ImageTexts(sites: set<Site>, rule: Rule, role: Role)
    ensures TextsWithRole(Image(sites, rule), {role}) == set x | x in TextsWithRole(sites, {role}) :: rule(role, x)
  {
    var l := TextsWithRole(Image(sites, rule), {role});
    var r := set x | x in TextsWithRole(sites, {role}) :: rule(role, x);
    forall y | y in l ensures y in r {
      var t :| t in Image(sites, rule) && t.role == role && t.text == y;
      var s :| s in sites && t == Site(s.role, rule(s.role, s.text));
      assert s.text in TextsWithRole(sites, {role});
    }
    forall y | y in r ensures y in l {
      var x :| x in TextsWithRole(sites, {role}) && y == rule(role, x);
      var s :| s in sites && s.role == role && s.text == x;
      assert Site(role, y) in Image(sites, rule);
    }
  }

  /** Blanks exactly the fields `GlobalRenamer` may change. */
  function BlankRenamable(): Rule
  {
    (role: Role, s: string) => if role in GlobalRenamedRoles then "" else s
  }

  /**
   * `GlobalRenamer` keeps the tree's shape: blanking the fields it may rename
   * gives the same tree before and after, so node kinds, child counts,
   * constants, parameters and every other field are unchanged, in place.
   */
  lemma GlobalRenamerKeepsShape(m: map<string, string>, n: Node)
    ensures Relabel(GlobalRenamer(m, n), BlankRenamable()) == Relabel(n, BlankRenamable())
  {
    GlobalRenamerIsRelabel(m, n);
    RelabelCompose(n, GlobalRule(m), BlankRenamable(), BlankRenamable());
  }

  /** A map none of whose keys occurs in a renamable field leaves the tree unchanged. */
  lemma GlobalRenamerUnchanged(m: map<string, string>, n: Node)
    requires forall s :: s in Sites(n) && s.role in GlobalRenamedRoles ==> s.text !in m
    ensures GlobalRenamer(m, n) == n
  {
    GlobalRenamerIsRelabel(m, n);
    RelabelFixes(n, GlobalRule(m));
  }

  /** With an empty map, `GlobalRenamer` is the identity. */
  lemma GlobalRenamerEmptyMap(n: Node)
    ensures GlobalRenamer(map[], n) == n
  {
    GlobalRenamerUnchanged(map[], n);
  }

  /**
   * Renaming can be undone by the inverse map, provided no untouched name in a
   * renamable field is also one of the new names.
   */
  lemma GlobalRenamerInverse(m: map<string, string>, inv: map<string, string>, n: Node)
    requires forall k :: k in m ==> m[k] in inv && inv[m[k]] == k
    requires forall s :: s in Sites(n) && s.role in GlobalRenamedRoles && s.text !in m ==> s.text !in inv
    ensures GlobalRenamer(inv, GlobalRenamer(m, n)) == n
  {
    GlobalRenamerIsRelabel(m, n);
    GlobalRenamerIsRelabel(inv, GlobalRenamer(m, n));
    var id: Rule := (role: Role, s: string) => s;
    RelabelCompose(n, GlobalRule(m), GlobalRule(inv), id);
    RelabelFixes(n, id);
  }

  // ---------------------------------------------------------------------
  // NameApplier

  function NameRule(m: map<string, string>): Rule
  {
    (role: Role, s: string) => if role == NameId then RenameIfKey(m, s) else s
  }

  /**
   * `NameApplier(m).visit(n)`: only `visit_Name` is defined, so every other
   * node, nested definitions included, is visited generically.
   */
  function NameApplier(m: map<string, string>, n: Node): Node
  {
    match n
    case FunctionDef(name, args, otherArgs, header, body) =>
      FunctionDef(name, args, otherArgs, NameApplierAll(m, header), NameApplierAll(m, body))
    case AsyncFunctionDef(name, args, otherArgs, header, body) =>
      AsyncFunctionDef(name, args, otherArgs, NameApplierAll(m, header), NameApplierAll(m, body))
    case ClassDef(name, bases, body) => ClassDef(name, NameApplierAll(m, bases), NameApplierAll(m, body))
    case Name(id) => Name(RenameIfKey(m, id))
    case Attribute(value, attr) => Attribute(NameApplier(m, value), attr)
    case ImportFrom(_, _) => n
    case Assign(targets, value) => Assign(NameApplierAll(m, targets), NameApplier(m, value))
    case Const(_) => n
    case Other(kind, fields, children) => Other(kind, fields, NameApplierAll(m, children))
  }

  function NameApplierAll(m: map<string, string>, ns: seq<Node>): (r: seq<Node>)
    ensures |r| == |ns|
  {
    seq(|ns|, i requires 0 <= i < |ns| => NameApplier(m, ns[i]))
  }

  /** `NameApplier` is the relabelling by `NameRule`. */
  lemma {:induction false} NameApplierIsRelabel(m: map<string, string>, n: Node)
    ensures NameApplier(m, n) == Relabel(n, NameRule(m))
    decreases n, 1
  {
    var rule := NameRule(m);
    match n
    case FunctionDef(name, args, otherArgs, header, body) =>
      NameApplierAllIsRelabel(m, header);
      NameApplierAllIsRelabel(m, body);
      UntouchedStrings(args, Param, rule);
      UntouchedStrings(otherArgs, OtherParam, rule);
    case AsyncFunctionDef(name, args, otherArgs, header, body) =>
      NameApplierAllIsRelabel(m, header);
      NameApplierAllIsRelabel(m, body);
      UntouchedStrings(args, Param, rule);
      UntouchedStrings(otherArgs, OtherParam, rule);
    case ClassDef(name, bases, body) =>
      NameApplierAllIsRelabel(m, bases);
      NameApplierAllIsRelabel(m, body);
    case Name(id) =>
    case Attribute(value, attr) =>
      NameApplierIsRelabel(m, value);
    case ImportFrom(moduleName, names) =>
      var relabelled := seq(|names|, i requires 0 <= i < |names| => RelabelAlias(names[i], rule));
      assert relabelled == names;
    case Assign(targets, value) =>
      NameApplierAllIsRelabel(m, targets);
      NameApplierIsRelabel(m, value);
    case Const(_) =>
    case Other(kind, fields, children) =>
      NameApplierAllIsRelabel(m, children);
      UntouchedStrings(fields, Field, rule);
  }

  lemma {:induction false} NameApplierAllIsRelabel(m: map<string, string>, ns: seq<Node>)
    ensures NameApplierAll(m, ns) == RelabelAll(ns, NameRule(m))
    decreases ns, 0
  {
    forall i | 0 <= i < |ns| ensures NameApplierAll(m, ns)[i] == RelabelAll(ns, NameRule(m))[i] {
      NameApplierIsRelabel(m, ns[i]);
    }
  }

  /** After `NameApplier`, `Name` ids are the renamed originals and every other field is untouched. */
  lemma NameApplierSites(m: map<string, string>, ns: seq<Node>, role: Role)
    ensures role == NameId ==>
      TextsWithRole(SitesAll(NameApplierAll(m, ns)), {role}) == set x | x in TextsWithRole(SitesAll(ns), {role}) :: RenameIfKey(m, x)
    ensures role != NameId ==>
      TextsWithRole(SitesAll(NameApplierAll(m, ns)), {role}) == TextsWithRole(SitesAll(ns), {role})
  {
    NameApplierAllIsRelabel(m, ns);
    RelabelAllSites(ns, NameRule(m));
    ImageTexts(SitesAll(ns), NameRule(m), role);
  }

  /** Blanks the one field `NameApplier` may change. */
  function BlankNameIds(): Rule
  {
    (role: Role, s: string) => if role == NameId then "" else s
  }

  /** `NameApplier` keeps everything but `Name` ids in place. */
  lemma NameApplierKeepsShape(m: map<string, string>, ns: seq<Node>)
    ensures RelabelAll(NameApplierAll(m, ns), BlankNameIds()) == RelabelAll(ns, BlankNameIds())
  {
    NameApplierAllIsRelabel(m, ns);
    RelabelAllCompose(ns, NameRule(m), BlankNameIds(), BlankNameIds());
  }

  /** Body statements whose `Name` ids are not keys come back unchanged. */
  lemma NameApplierUnchanged(m: map<string, string>, ns: seq<Node>)
    requires forall s :: s in SitesAll(ns) && s.role == NameId ==> s.text !in m
    ensures NameApplierAll(m, ns) == ns
  {
    NameApplierAllIsRelabel(m, ns);
    RelabelAllFixes(ns, NameRule(m));
  }

  /** With an empty map `NameApplier` is the identity. */
  lemma NameApplierEmptyMap(ns: seq<Node>)
    ensures NameApplierAll(map[], ns) == ns
  {
    NameApplierUnchanged(map[], ns);
  }

  /**
   * Applying a map and then its inverse gives the statements back, provided
   * no `Name` id that was left alone is a key of the inverse.
   */
  lemma NameApplierInverse(m: map<string, string>, inv: map<string, string>, ns: seq<Node>)
    requires forall k :: k in m ==> m[k] in inv && inv[m[k]] == k
    requires forall s :: s in SitesAll(ns) && s.role == NameId && s.text !in m ==> s.text !in inv
    ensures NameApplierAll(inv, NameApplierAll(m, ns)) == ns
  {
    NameApplierAllIsRelabel(m, ns);
    NameApplierAllIsRelabel(inv, NameApplierAll(m, ns));
    var id: Rule := (role: Role, s: string) => s;
    RelabelAllCompose(ns, NameRule(m), NameRule(inv), id);
    RelabelAllFixes(ns, id);
  }

  // ---------------------------------------------------------------------
  // LocalVariableRenamer

  function NonSelfArgs(args: seq<string>): set<string>
  {
    set a | a in args && a != "self"
  }

  /** The ids of the plain `Name` nodes among assignment targets; attribute, tuple or subscript targets give none. */
  function PlainNames(targets: seq<Node>): set<string>
  {
    set t | t in targets && t.Name? :: t.id
  }

  /** The plain-name targets of `n` if it is an `Assign` node. */
  function PlainTargets(n: Node): set<string>
  {
    if n.Assign? then PlainNames(n.targets) else {}
  }

  /** The plain-name assignment targets among the nodes `ws`. */
  function AssignedNames(ws: seq<Node>): set<string>
  {
    if ws == [] then {} else AssignedNames(ws[..|ws| - 1]) + PlainTargets(ws[|ws| - 1])
  }

  /** A name is an assigned name exactly when some `Assign` node among `ws` has `Name(x)` as a target. */
  lemma {:induction false} AssignedNamesSpec(ws: seq<Node>, x: string)
    ensures x in AssignedNames(ws) <==> exists j :: 0 <= j < |ws| && ws[j].Assign? && Name(x) in ws[j].targets
    decreases |ws|
  {
    if ws != [] {
      var last := |ws| - 1;
      AssignedNamesSpec(ws[..last], x);
      if x in AssignedNames(ws[..last]) {
        var j :| 0 <= j < last && ws[..last][j].Assign? && Name(x) in ws[..last][j].targets;
        assert ws[j] == ws[..last][j];
      } else if x in PlainTargets(ws[last]) {
        var t :| t in ws[last].targets && t.Name? && t.id == x;
        assert t == Name(x);
      }
    }
  }

  /** The keys of the rename map `visit_FunctionDef` builds for `f`. */
  function LocalKeys(f: Node): set<string>
    requires f.FunctionDef?
  {
    NonSelfArgs(f.args) + AssignedNames(Walk(f))
  }

  /** A map that sends each of `keys` to the name generated from its draws. */
  function FreshNames(keys: set<string>, draw: Oracle): map<string, string>
    requires ValidOracle(draw)
  {
    map k | k in keys :: GenerateRandomName(NameLength, draw(k))
  }

  lemma FreshNamesAdd(keys: set<string>, x: string, draw: Oracle)
    requires ValidOracle(draw)
    ensures FreshNames(keys, draw)[x := GenerateRandomName(NameLength, draw(x))] == FreshNames(keys + {x}, draw)
  {
  }

  /** The rename map `visit_FunctionDef` builds for `f`. */
  function LocalMap(f: Node, draw: Oracle): map<string, string>
    requires f.FunctionDef? && ValidOracle(draw)
  {
    FreshNames(LocalKeys(f), draw)
  }

  lemma FreshNamesKeys(keys: set<string>, draw: Oracle)
    requires ValidOracle(draw)
    ensures FreshNames(keys, draw).Keys == keys
  {
  }

  /** The first loop of `visit_FunctionDef`: every positional parameter but `self` gets a new name. */
  method ParamRenameMap(args: seq<string>, draw: Oracle) returns (m: map<string, string>)
    requires ValidOracle(draw)
    ensures m == FreshNames(NonSelfArgs(args), draw)
  {
    m := map[];
    for i := 0 to |args|
      invariant m == FreshNames(NonSelfArgs(args[..i]), draw)
    {
      ghost var before := NonSelfArgs(args[..i]);
      assert args[..i + 1] == args[..i] + [args[i]];
      if args[i] != "self" {
        assert NonSelfArgs(args[..i + 1]) == before + {args[i]};
        FreshNamesAdd(before, args[i], draw);
        m := m[args[i] := GenerateRandomName(NameLength, draw(args[i]))];
      } else {
        assert NonSelfArgs(args[..i + 1]) == before;
      }
    }
    assert args[..|args|] == args;
  }

  /** The loops that fill `rename_map` in `visit_FunctionDef`. */
  method LocalRenameMap(f: Node, draw: Oracle) returns (m: map<string, string>)
    requires f.FunctionDef? && ValidOracle(draw)
    ensures m == LocalMap(f, draw)
  {
    m := ParamRenameMap(f.args, draw);
    ghost var params := NonSelfArgs(f.args);
    var walked := Walk(f);
    for j := 0 to |walked|
      invariant m == FreshNames(params + AssignedNames(walked[..j]), draw)
    {
      ghost var keys := params + AssignedNames(walked[..j]);
      assert walked[..j + 1][..j] == walked[..j];
      assert params + AssignedNames(walked[..j + 1]) == keys + PlainTargets(walked[j]);
      if walked[j].Assign? {
        m := AddPlainTargets(m, walked[j].targets, keys, draw);
      }
    }
    assert walked[..|walked|] == walked;
  }

  /** The inner loop of `visit_FunctionDef`: `targets` of one `Assign` node join the map. */
  method AddPlainTargets(m0: map<string, string>, targets: seq<Node>, ghost keys: set<string>, draw: Oracle)
    returns (m: map<string, string>)
    requires ValidOracle(draw) && m0 == FreshNames(keys, draw)
    ensures m == FreshNames(keys + PlainNames(targets), draw)
  {
    m := m0;
    for t := 0 to |targets|
      invariant m == FreshNames(keys + PlainNames(targets[..t]), draw)
    {
      ghost var before := keys + PlainNames(targets[..t]);
      assert targets[..t + 1] == targets[..t] + [targets[t]];
      FreshNamesKeys(before, draw);
      if targets[t].Name? && targets[t].id !in m {
        assert keys + PlainNames(targets[..t + 1]) == before + {targets[t].id};
        FreshNamesAdd(before, targets[t].id, draw);
        m := m[targets[t].id := GenerateRandomName(NameLength, draw(targets[t].id))];
      } else {
        assert keys + PlainNames(targets[..t + 1]) == before;
      }
    }
    assert targets[..|targets|] == targets;
  }

  /**
   * `LocalVariableRenamer().visit_FunctionDef(f)`: builds a map for the
   * positional parameters other than `self` and for every plain name assigned
   * anywhere inside `f`, renames the positional parameters found in it and
   * applies it to the `Name` nodes of the body. The function's own name,
   * its other parameters, decorators, defaults and annotations stay as they are.
   */
  method VisitFunctionDef(f: Node, draw: Oracle) returns (r: Node)
    requires f.FunctionDef? && ValidOracle(draw)
    ensures r.FunctionDef? && r.name == f.name && r.otherArgs == f.otherArgs && r.header == f.header
    ensures |r.args| == |f.args|
    ensures forall i :: 0 <= i < |f.args| ==> r.args[i] == RenameIfKey(LocalMap(f, draw), f.args[i])
    ensures forall i :: 0 <= i < |f.args| && f.args[i] != "self" ==> IsGeneratedName(r.args[i], NameLength)
    ensures r.body == NameApplierAll(LocalMap(f, draw), f.body)
  {
    var m := LocalRenameMap(f, draw);

    var args := f.args;
    for i := 0 to |args|
      invariant |args| == |f.args|
      invariant forall k :: 0 <= k < i ==> args[k] == RenameIfKey(m, f.args[k])
      invariant forall k :: i <= k < |args| ==> args[k] == f.args[k]
    {
      if args[i] in m {
        args := args[i := m[args[i]]];
      }
    }
    forall i | 0 <= i < |f.args| && f.args[i] != "self" ensures IsGeneratedName(args[i], NameLength) {
      assert f.args[i] in NonSelfArgs(f.args);
    }

    var body := seq(|f.body|, i requires 0 <= i < |f.body| => NameApplier(m, f.body[i]));
    r := FunctionDef(f.name, args, f.otherArgs, f.header, body);
  }
}
