# PyCloak in Dafny

PyCloak obfuscates a Python project in two passes. Discovery parses every
`.py` file and collects the names of the functions and classes it defines.
One global rename map then sends each of those names to a random name such as
`_xYz1`. Transformation parses each `.py` file again and renames definitions,
`Name` references, attribute names and `from … import` names through that map.
It then encrypts string constants, puts a decryptor preamble in front when any
string was encrypted, and writes the file to the same relative path under the
output directory. A third pass, `LocalVariableRenamer`, renames one function's
parameters and assigned local variables. It is defined next to the others but
the command does not call it.

The model has five modules:

- `PyAst` (`pyast.dfy`) — the Python AST as a `Node` datatype. Only the node
  kinds the passes treat specially get their own constructor (`FunctionDef`,
  `AsyncFunctionDef`, `ClassDef`, `Name`, `Attribute`, `ImportFrom`, `Assign`,
  `Const`); every other kind is `Other(kind, string fields, children)`.
  `Sites(n)` lists every identifier string in a tree, tagged with its role.
  `Relabel(n, rule)` rewrites each site by a rule and leaves everything else
  alone. It is the reference that the renaming passes are proved equal to.
  Generic lemmas about it cover the sites of the result, composition and
  fixed points. From these follow shape preservation, the identity on
  untouched trees and inverse maps for `GlobalRenamer` and `NameApplier`.
  `LocalVariableRenamer` is specified through `NameApplier` and its map.
- `Transformers` (`transformers.dfy`) — `generate_random_name` over an oracle
  of `random.choice` draws; `GlobalRenamer` and `NameApplier` as recursive
  functions; `LocalVariableRenamer.visit_FunctionDef` as methods with the
  loops that fill its rename map.
- `Discoverer` (`discoverer.dfy`) — `NameCollector` as a class whose
  `definedNames` set field its visit methods extend, proved against the
  function `Collected`; `ProjectDiscoverer.discover` as a loop over the
  project's files.
- `Cli` (`cli.dfy`) — `create_rename_map`, the per-file pipeline, output
  paths, and `main` as a loop over files.
- `SampleApp` (`scenario.dfy`) — `sample_app/main_app.py` as a tree and what
  discovery and renaming do to it.

Inputs from outside the program become parameters:

- The project directory is a sequence of `SourceFile(dir, filename, parse)`
  in `os.walk` order. `parse` is the `ast.parse` result or `SyntaxError`.
- `random.choice` is an oracle `draw: string -> seq<nat>`. It gives, for each
  name that needs a new name, the alphabet indices drawn for it.
- `StringEncryptor().visit` is a parameter `encrypt: seq<Node> -> Encrypted`.
  It returns the new body and the `encrypted_strings` table.
- `create_decryptor_preamble` is a parameter `preamble: seq<string> -> seq<Node>`.

`create_rename_map` does nothing to keep generated names distinct, so the
model promises no distinctness: `CreateRenameMapInjective` says the map is
injective exactly when the draws differ, and `CreateRenameMapMayCollide`
exhibits a collision.

## Model

| member | source | states |
|---|---|---|
| Transformers.GenerateRandomName | src/pycloak/transformers.py:5-8 | the result is `_` followed by `length` characters, each an ASCII letter or digit |
| Transformers.GenerateRandomNameInjective | src/pycloak/transformers.py:7-8 | different draws give different names, so the alphabet has no duplicate characters |
| Transformers.EveryShapedNameIsGenerated | src/pycloak/transformers.py:5-8 | every string of that shape can be generated by some sequence of draws |
| Transformers.GlobalRenamerIsRelabel | src/pycloak/transformers.py:47-82 | `GlobalRenamer` rewrites exactly the function and class names, `Name` ids, attribute names and imported names, and nothing else; async function names have no handler and stay as they are |
| Transformers.GlobalRenamerSites | src/pycloak/transformers.py:54-82 | for each renamed role, the texts after renaming are the texts before with map keys replaced by their images; for every other role (parameters, `as` names, module names, other fields) they are unchanged |
| Transformers.GlobalRenamerKeepsShape | src/pycloak/transformers.py:47-82 | with the renamable fields blanked, the renamed tree equals the original: same node kinds, child counts and all other strings |
| Transformers.GlobalRenamerUnchanged | src/pycloak/transformers.py:54-82 | a tree with no renamable text among the map's keys is returned unchanged |
| Transformers.GlobalRenamerEmptyMap | src/pycloak/transformers.py:47-82 | with an empty map `GlobalRenamer` is the identity |
| Transformers.GlobalRenamerInverse | src/pycloak/transformers.py:47-82 | renaming by a map and then by its inverse gives back the tree, provided no name that was not renamed is a key of the inverse |
| Transformers.NameApplierIsRelabel | src/pycloak/transformers.py:35-45 | `NameApplier` rewrites exactly the `Name` ids found in its map and nothing else |
| Transformers.NameApplierSites | src/pycloak/transformers.py:42-45 | the `Name` ids after applying are those before with keys replaced; texts of every other role are unchanged |
| Transformers.NameApplierKeepsShape | src/pycloak/transformers.py:35-45 | with `Name` ids blanked, the result equals the input |
| Transformers.NameApplierUnchanged | src/pycloak/transformers.py:42-45 | statements with no `Name` id among the map's keys come back unchanged |
| Transformers.NameApplierEmptyMap | src/pycloak/transformers.py:35-45 | with an empty map `NameApplier` is the identity |
| Transformers.NameApplierInverse | src/pycloak/transformers.py:35-45 | applying a map and then its inverse gives the statements back, provided no `Name` id left alone is a key of the inverse |
| Transformers.AssignedNamesSpec | src/pycloak/transformers.py:21-25 | a name is an assigned local exactly when some `Assign` node reached by the walk has a plain `Name` with that id among its targets; attribute, tuple and subscript targets contribute nothing |
| Transformers.ParamRenameMap | src/pycloak/transformers.py:16-19 | the first loop builds the map whose keys are exactly the positional parameters other than `self`, each sent to its generated name |
| Transformers.LocalRenameMap | src/pycloak/transformers.py:16-25 | the loops build the map whose keys are the positional parameters other than `self` plus the assigned locals, each sent to its generated name |
| Transformers.AddPlainTargets | src/pycloak/transformers.py:23-25 | the inner loop over one assignment's targets adds exactly its plain-name targets; a name already present keeps its value |
| Transformers.VisitFunctionDef | src/pycloak/transformers.py:15-33 | the function name, other parameters and header are unchanged; each positional parameter is renamed exactly when it is a key, and every parameter other than `self` gets a generated name; the body is the map applied to every `Name` |
| PyAst.Walk | src/pycloak/transformers.py:21 | the walk of a node is non-empty and starts with the node itself |
| Discoverer.NameCollector.Visit | src/pycloak/discoverer.py:5-24 | visiting a node adds exactly `Collected(n)` to `definedNames` and keeps what was already there |
| Discoverer.NameCollector.VisitFunctionDef | src/pycloak/discoverer.py:12-16 | adds the function's name and everything collected below it |
| Discoverer.NameCollector.VisitClassDef | src/pycloak/discoverer.py:18-24 | adds the class name and what its direct `FunctionDef` items collect, by the loop over the class body |
| Discoverer.NameCollector.VisitAll | src/pycloak/discoverer.py:16 | the generic visit of a list of children adds exactly what they collect |
| Discoverer.NameCollector.constructor | src/pycloak/discoverer.py:9-10 | a new collector starts with an empty set |
| Discoverer.CollectedAllSpec | src/pycloak/discoverer.py:16 | a list collects exactly the union of what its items collect |
| Discoverer.CollectedAreDefinitionNames | src/pycloak/discoverer.py:5-24 | every collected name is the name of a function or class definition in the tree; parameters, variables, attributes and imported names never appear |
| Discoverer.CollectsEveryOpenDefinition | src/pycloak/discoverer.py:12-24 | every function or class defined outside all class bodies is collected, however deeply it is nested in functions, async functions or statements |
| Discoverer.ClassMethodsSpec | src/pycloak/discoverer.py:22-24 | the loop over a class body collects exactly what its direct `FunctionDef` items collect, and nothing from any other item |
| Discoverer.ClassCollects | src/pycloak/discoverer.py:18-24 | a class collects exactly its own name plus what its direct methods collect; every function or class defined in a method outside further class bodies is among them |
| Discoverer.ClassBodyScannedOneLevel | src/pycloak/discoverer.py:22-24 | a class nested in a class body, its methods, and a def under a statement in a class body are not collected; a method and a def nested in a method are |
| Discoverer.AsyncFunctionNameNotCollected | src/pycloak/discoverer.py:12 | an async function's name is not collected, but a def inside it is |
| Discoverer.Discover | src/pycloak/discoverer.py:30-44 | the loop with a fresh collector per `.py` file computes `ProjectNames(files)` |
| Discoverer.ProjectNamesErrorPersists | src/pycloak/discoverer.py:38 | once a `.py` file fails to parse, discovery fails with that file's error whatever follows |
| Discoverer.ProjectNamesSpec | src/pycloak/discoverer.py:30-44 | discovery succeeds exactly when every `.py` file parses, and then returns exactly the names collected from some `.py` file; other files are ignored |
| Discoverer.ProjectNamesGrow | src/pycloak/discoverer.py:31-42 | names are only added: each prefix of the walk yields a subset of the final set |
| Discoverer.ProjectNamesOrderIndependent | src/pycloak/discoverer.py:30-44 | the outcome and the name set do not depend on the order the files are visited in |
| Cli.CreateRenameMap | src/pycloak/cli.py:14-16 | the key set is exactly the given names and every value has the generated-name shape `_` plus 4 letters or digits |
| Cli.CreateRenameMapInjective | src/pycloak/cli.py:16 | two names receive the same new name exactly when their draws are equal |
| Cli.CreateRenameMapMayCollide | src/pycloak/cli.py:16 | with equal draws, two different names are sent to the same new name: no distinctness is checked |
| Cli.TransformFile | src/pycloak/cli.py:55-64 | the encryptor runs on the renamed tree; the encrypted body always ends the result unchanged; the preamble of the table stands before it exactly when the table is non-empty, and nothing stands before it otherwise |
| Cli.TransformFileEncryptsRenamedTree | src/pycloak/cli.py:55-64 | for any encryptor, the encryptor is given the global relabelling of the body, what it returns ends the file unchanged, and with an empty table it is the whole file |
| Cli.TransformFileRenamesFirst | src/pycloak/cli.py:55-59 | with an encryptor that leaves the body as it is and records no string, the file is exactly its global renaming |
| Cli.OutputPath | src/pycloak/cli.py:41-68 | the output path is the output directory, then the file's directory relative to the source root (`.` for the root itself), then the file name, so the output tree mirrors the source tree |
| Cli.OutputPathInjective | src/pycloak/cli.py:41-68 | different source files get different output paths |
| Cli.Obfuscate | src/pycloak/cli.py:21-71 | a parse error during discovery aborts with that error and no output; otherwise one rename map built from all discovered names is used for every `.py` file, and the written files are `Outputs(...)` in walk order |
| Cli.PyOutputsSpec | src/pycloak/cli.py:47-48 | the files kept by the `.py` filter are exactly those whose name ends in `.py`, each mapped by the per-file function |
| Cli.OutputsArePyOutputs | src/pycloak/cli.py:47-71 | the written files are the `.py` filter applied with the per-file pipeline |
| Cli.OutputsSpec | src/pycloak/cli.py:47-71 | exactly the `.py` files are written, each at its output path, each transformed with the same map |
| Cli.ConsistentAcrossFiles | src/pycloak/cli.py:31-56 | a name collected from any file is a key of the global map, and wherever it stands in a renamable position in any `.py` file it becomes that key's one generated name: the renamed body is the relabelling of the body by the global rule, and that rule sends every occurrence of the name in that role to the key's image |
| SampleApp.SampleAppDefinesRunApp | sample_app/main_app.py:1-9 | the sample module defines only `run_app`; its import and locals are not collected |
| SampleApp.ImportLineRenamed | sample_app/main_app.py:1 | both imported names are renamed; the module name `utils` is not |
| SampleApp.GreetingLineRenamed | sample_app/main_app.py:8 | the method name in the attribute access is renamed; the local `formatter` and the string constant are not |
| SampleApp.PrintLineLocalRename | sample_app/main_app.py:5 | a name inside an f-string is an ordinary `Name` node and is renamed by the local map |

## Left out

- File-system I/O: `os.walk`, `open`, `read`, `write`, `shutil.rmtree` and `os.makedirs` are not modelled. Files arrive as a sequence in walk order, and outputs are returned as (path, body) pairs. Discovery and transformation see the same sequence; the source walks the directory a second time (`src/pycloak/cli.py:40`) after creating the output directory (`src/pycloak/cli.py:38`), so an output directory inside the source directory, whose freshly written files the second walk would also see, is not modelled.
- The `click` command-line interface and the console messages are not modelled.
- `ast.parse`, `ast.unparse` and `ast.fix_missing_locations` are not modelled. A tree is a `Node` value, and a parse is given as the tree or `SyntaxError`.
- `StringEncryptor` and `create_decryptor_preamble` are not part of this model. Their definitions are not in `src/pycloak/transformers.py`, so they are uninterpreted parameters.
- `random.choice` is an oracle keyed by the name being mapped, not a stream of calls. A name looked up twice in one map therefore gets the same draws. This only matters for duplicate positional parameter names (`def f(a, a)`), which `ast.parse` accepts; the source then draws twice for that name and keeps the second draw, which is again a free choice of draws, so the set of maps the model can produce is the same.
- In-place update is modelled on values. The passes overwrite `node.name`, `node.id`, `node.attr`, `alias.name`, `arg.arg` and `node.body` in place; the model returns a new tree. Aliasing between trees is not captured.
- `PyAst.Walk`: states only that the walk starts at the node itself. The breadth-first order of `ast.walk` is not modelled; the renaming depends only on which `Assign` nodes are reached.
- `LocalVariableRenamer` reached through the generic `visit` of a module is not modelled. Only its `visit_FunctionDef` on one function is. The command never runs this pass.
- Keyword-only parameters, `*args`, `**kwargs`, decorators, defaults and annotations are grouped per function (`otherArgs`, `header`). `visit_FunctionDef` only reads `node.args.args`.
- `main.py` is a script that repeats `create_rename_map` and prints its results; it is not modelled. `sample_app/main_app.py` is input data and appears only in `SampleApp`.
- Creating the output subdirectories (`src/pycloak/cli.py:44-45`) is file-system work and is not modelled.
