/**
 * The sample application (sample_app/main_app.py) as a tree, and what the
 * passes do to it when `utils.py` defines `Formatter`, `get_user_id` and
 * `format_greeting`.
 */
module SampleApp {
  import opened PyAst
  import opened Transformers
  import opened Discoverer

  /** `from utils import Formatter, get_user_id` */
  const ImportLine: Node := ImportFrom(Some("utils"), [Alias("Formatter", None), Alias("get_user_id", None)])

  /** `print(f"User ID: {user_id}")` */
  const PrintLine: Node :=
    Other("Expr", [], [Other("Call", [], [Name("print"),
      Other("JoinedStr", [], [Const("User ID: "), Other("FormattedValue", [], [Name("user_id")])])])])

  /** `greeting = formatter.format_greeting("Vasudev")` */
  const GreetingLine: Node :=
    Assign([Name("greeting")], Other("Call", [], [Attribute(Name("formatter"), "format_greeting"), Const("Vasudev")]))

  /** The definition of `run_app`. */
  const RunApp: Node :=
    FunctionDef("run_app", [], [], [], [
      Assign([Name("user_id")], Other("Call", [], [Name("get_user_id")])),
      PrintLine,
      Assign([Name("formatter")], Other("Call", [], [Name("Formatter")])),
      GreetingLine,
      Other("Expr", [], [Other("Call", [], [Name("print"), Name("greeting")])])
    ])

  /** The project-wide map, as if `utils.py` defined the three imported names. */
  const ProjectMap: map<string, string> :=
    map["run_app" := "_r4n0", "Formatter" := "_Fm7t", "get_user_id" := "_g3Id", "format_greeting" := "_fG9x"]

  /** Of the whole module only `run_app` is a definition; its local variables are not collected. */
  lemma SampleAppDefinesRunApp()
    ensures Collected(ImportLine) == {}
    ensures Collected(RunApp) == {"run_app"}
  {
    var call := Other("Call", [], [Name("print"), Name("greeting")]);
    CollectedAllSpec(call.children);
    CollectedAllSpec([call]);
    var fstring := Other("JoinedStr", [], [Const("User ID: "), Other("FormattedValue", [], [Name("user_id")])]);
    CollectedAllSpec(fstring.children);
    CollectedAllSpec([Name("user_id")]);
    CollectedAllSpec([Name("print"), fstring]);
    CollectedAllSpec(PrintLine.children);
    assert Collected(PrintLine) == {};
    CollectedAllSpec([Name("greeting")]);
    CollectedAllSpec([Attribute(Name("formatter"), "format_greeting"), Const("Vasudev")]);
    CollectedAllSpec([Other("Call", [], [Attribute(Name("formatter"), "format_greeting"), Const("Vasudev")])]);
    assert Collected(GreetingLine) == {};
    CollectedAllSpec([Name("get_user_id")]);
    CollectedAllSpec([Name("Formatter")]);
    CollectedAllSpec([Name("user_id")]);
    CollectedAllSpec([Name("formatter")]);
    CollectedAllSpec(RunApp.body);
    assert CollectedAll(RunApp.header) == {};
  }

  /** The imported names are renamed; the module name `utils` is not. */
  lemma ImportLineRenamed()
    ensures GlobalRenamer(ProjectMap, ImportLine) == ImportFrom(Some("utils"), [Alias("_Fm7t", None), Alias("_g3Id", None)])
  {
  }

  /** A method name is renamed in an attribute access; the local `formatter` and the string constant are not. */
  lemma GreetingLineRenamed()
    ensures GlobalRenamer(ProjectMap, GreetingLine) ==
      Assign([Name("greeting")], Other("Call", [], [Attribute(Name("formatter"), "_fG9x"), Const("Vasudev")]))
  {
    var call := Other("Call", [], [Attribute(Name("formatter"), "format_greeting"), Const("Vasudev")]);
    assert GlobalRenamerAll(ProjectMap, call.children) == [Attribute(Name("formatter"), "_fG9x"), Const("Vasudev")];
    assert GlobalRenamerAll(ProjectMap, [Name("greeting")]) == [Name("greeting")];
  }

  /** A `Name` inside an f-string is an ordinary `Name` node, so the local renaming reaches it. */
  lemma PrintLineLocalRename()
    ensures NameApplier(map["user_id" := "_u5Er"], PrintLine) ==
      Other("Expr", [], [Other("Call", [], [Name("print"),
        Other("JoinedStr", [], [Const("User ID: "), Other("FormattedValue", [], [Name("_u5Er")])])])])
  {
    var m := map["user_id" := "_u5Er"];
    assert NameApplierAll(m, [Name("user_id")]) == [Name("_u5Er")];
    var value := Other("FormattedValue", [], [Name("user_id")]);
    assert NameApplierAll(m, [Const("User ID: "), value]) == [Const("User ID: "), NameApplier(m, value)];
    var fstring := Other("JoinedStr", [], [Const("User ID: "), value]);
    assert NameApplierAll(m, [Name("print"), fstring]) == [Name("print"), NameApplier(m, fstring)];
    var call := Other("Call", [], [Name("print"), fstring]);
    assert NameApplierAll(m, [call]) == [NameApplier(m, call)];
  }
}
