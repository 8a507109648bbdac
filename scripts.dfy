/** The two scripts as runs of the shared scaffold: `hammer_out_from_yaml.py`
    copies `mold` and writes its own controller, router and root route;
    `generate_project.py` copies `template`, writes a controller and router
    of its own, and no root route. Both append the same schema models. Also
    where the `require`s the scripts write lead once the project exists. */
module Scripts {
  import opened Text
  import opened Files
  import opened Schema
  import opened Express
  import opened Seqs
  import opened Scaffold
  import opened Layout
  import Hammer
  import Generate
  import Wiring

  datatype Script = HammerScript | GenerateScript

  /** The template directory each script copies, whose name it also replaces. */
  function Placeholder(script: Script): (p: string)
    ensures p != []
  {
    match script
    case HammerScript => "mold"
    case GenerateScript => "template"
  }

  /** Only the first script writes the `GET /` route into `app.js`. */
  predicate HasRootRoute(script: Script) {
    script == HammerScript
  }

  function ControllerText(script: Script, n: string): string {
    match script
    case HammerScript => Unlines(Hammer.ControllerLines(n))
    case GenerateScript => Unlines(Generate.ControllerLines(n))
  }

  function RoutesText(script: Script, n: string): string {
    match script
    case HammerScript => Unlines(Hammer.RoutesLines(n))
    case GenerateScript => Unlines(Generate.RoutesLines(n))
  }

  function AppText(script: Script, names: seq<string>, port: int): string {
    Unlines(Wiring.AppLines(names, port, HasRootRoute(script)))
  }

  /** What each script writes besides the template. */
  function ScriptSources(script: Script): Sources {
    Sources(
      Placeholder(script),
      models => Unlines(SchemaLines(models)),
      n => ControllerText(script, n),
      n => RoutesText(script, n),
      (names, port) => AppText(script, names, port))
  }

  /** `hammer_out_from_yaml.py`, start to end, on the workspace. */
  method HammerOut(ws: Workspace, cfg: Config, models: seq<Model>) returns (result: Result)
    modifies ws
    ensures result == RunSpec(old(ws.State()), ScriptSources(HammerScript), cfg, models)
    ensures result.Aborted? ==> ws.State() == old(ws.State())
    ensures result.Done? ==> ws.State() == result.store
  {
    result := Run(ws, ScriptSources(HammerScript), cfg, models);
  }

  /** `generate_project.py`, start to end, on the workspace. */
  method GenerateProject(ws: Workspace, cfg: Config, models: seq<Model>) returns (result: Result)
    modifies ws
    ensures result == RunSpec(old(ws.State()), ScriptSources(GenerateScript), cfg, models)
    ensures result.Aborted? ==> ws.State() == old(ws.State())
    ensures result.Done? ==> ws.State() == result.store
  {
    result := Run(ws, ScriptSources(GenerateScript), cfg, models);
  }

  // ---------------------------------------------------------------------------
  // Where the written `require`s lead

  /** A name Node and the file system take as one plain component. */
  predicate PlainName(n: string) {
    !Special(n) && '/' !in n
  }

  /** Walking down through plain components appends them. */
  lemma {:induction false} WalkDown(d: Path, parts: seq<string>)
    requires forall k :: 0 <= k < |parts| ==> !Special(parts[k])
    ensures Walk(d, parts) == d + parts
    decreases |parts|
  {
    if parts != [] {
      WalkDown(d + [parts[0]], parts[1..]);
      assert d + [parts[0]] + parts[1..] == d + parts;
    }
  }

  /** A module name with a leading `./` and no other `/` names a file in the
      directory the require is written in. */
  lemma ResolveSibling(d: Path, stem: string)
    requires '/' !in stem && |stem| > 2
    ensures Resolve(d, "./" + stem) == d + [stem + ".js"]
  {
    var file := stem + ".js";
    assert "./" + stem + ".js" == "." + ['/'] + file;
    NotInConcat('/', stem, ".js");
    SplitOnCons(".", '/', file);
    SplitOnOne(file, '/');
    assert Walk(d, [".", file]) == Walk(d, [file]);
  }

  /** The file names Node looks for. */
  lemma JsNames(n: string)
    ensures n + ".controller" + ".js" == n + ".controller.js"
    ensures n + "_controller" + ".js" == n + "_controller.js"
    ensures n + ".routes" + ".js" == n + ".routes.js"
  {
    assert ".controller" + ".js" == ".controller.js";
    assert "_controller" + ".js" == "_controller.js";
    assert ".routes" + ".js" == ".routes.js";
    Assoc(n, ".controller", ".js");
    Assoc(n, "_controller", ".js");
    Assoc(n, ".routes", ".js");
  }

  /** The first script's router requires `./<n>.controller`: the controller
      written beside it. */
  lemma HammerControllerFound(r: Path, n: string)
    requires PlainName(n)
    ensures Resolve(ModelDir(r, n), "./" + n + ".controller") == ControllerPath(r, n)
  {
    NotInConcat('/', n, ".controller");
    ResolveSibling(ModelDir(r, n), n + ".controller");
    Assoc("./", n, ".controller");
    JsNames(n);
  }

  /** A relative module name of three components separated by `/`. */
  lemma SplitThree(a: string, b: string, c: string)
    requires a != [] && b != [] && c != [] && '/' !in a && '/' !in b && '/' !in c
    ensures SplitOn(a + ['/'] + (b + ['/'] + c), '/') == [a, b, c]
  {
    SplitOnCons(a, '/', b + ['/'] + c);
    SplitOnCons(b, '/', c);
    SplitOnOne(c, '/');
  }

  lemma GenerateTarget(n: string)
    ensures "../controllers/" + n + "_controller" + ".js" == ".." + ['/'] + ("controllers" + ['/'] + (n + "_controller.js"))
  {
    var head := "../controllers/";
    assert head == ".." + ['/'] + ("controllers" + ['/']);
    JsNames(n);
    Assoc(head, n, "_controller");
    Assoc(head, n + "_controller", ".js");
    Assoc(".." + ['/'], "controllers" + ['/'], n + "_controller.js");
    Assoc("controllers", ['/'], n + "_controller.js");
  }

  lemma UpModelDir(r: Path, n: string)
    ensures Up(ModelDir(r, n)) == r + ["src"]
  {
  }

  /** Up one directory, then down two plain components. */
  lemma WalkUpTwo(d: Path, x: string, a: string, b: string)
    requires !Special(a) && !Special(b)
    ensures Walk(d + [x], ["..", a, b]) == d + [a, b]
  {
    var parts := ["..", a, b];
    assert parts[0] == ".." && parts[1..] == [a, b];
    assert Up(d + [x]) == d;
    WalkDown(d, [a, b]);
  }

  /** A require whose target, with `.js` added, splits into `parts`. */
  lemma ResolveVia(d: Path, target: string, text: string, parts: seq<string>)
    requires target + ".js" == text && SplitOn(text, '/') == parts
    ensures Resolve(d, target) == Walk(d, parts)
  {
  }

  /** The second script's router requires `../controllers/<n>_controller`:
      a file in `src/controllers`. */
  lemma GenerateControllerSought(r: Path, n: string)
    requires PlainName(n)
    ensures Resolve(ModelDir(r, n), "../controllers/" + n + "_controller") == r + ["src", "controllers", n + "_controller.js"]
  {
    var file := n + "_controller.js";
    GenerateTarget(n);
    NotInConcat('/', n, "_controller.js");
    SplitThree("..", "controllers", file);
    ResolveVia(ModelDir(r, n), "../controllers/" + n + "_controller",
      ".." + ['/'] + ("controllers" + ['/'] + file), ["..", "controllers", file]);
    assert ["src"] + [n] == ["src", n];
    Assoc(r, ["src"], [n]);
    WalkUpTwo(r + ["src"], n, "controllers", file);
    assert ["src"] + ["controllers", file] == ["src", "controllers", file];
    Assoc(r, ["src"], ["controllers", file]);
  }

  /** ... and no model's directory holds that file: the name has `_` where the
      written controller has `.`, and is no router's name either. */
  lemma GenerateControllerMissing(r: Path, n: string, m: string)
    ensures r + ["src", "controllers", n + "_controller.js"] != ControllerPath(r, m)
    ensures r + ["src", "controllers", n + "_controller.js"] != RoutesPath(r, m)
  {
    var missing := n + "_controller.js";
    assert (r + ["src", "controllers", missing])[|r| + 2] == missing;
    assert ControllerPath(r, m)[|r| + 2] == m + ".controller.js";
    assert RoutesPath(r, m)[|r| + 2] == m + ".routes.js";
    if |n| == |m| {
      assert missing[|n|] != (m + ".controller.js")[|m|];
    }
    if |m| == |n| + 4 {
      assert missing[|n| + 4] != (m + ".routes.js")[|m|];
    }
  }

  lemma RouterTarget(n: string)
    ensures Wiring.RoutesModule(n) + ".js" == "." + ['/'] + ("src" + ['/'] + (n + ['/'] + (n + ".routes.js")))
  {
    var head := "./src/";
    assert head == "." + ['/'] + ("src" + ['/']);
    JsNames(n);
    assert Wiring.RoutesModule(n) == head + n + "/" + n + ".routes";
    Assoc(head + n + "/" + n, ".routes", ".js");
    Assoc(head + n + "/", n, ".routes.js");
    Assoc(head + n, "/", n + ".routes.js");
    Assoc(head, n, "/" + (n + ".routes.js"));
    Assoc("." + ['/'], "src" + ['/'], n + ['/'] + (n + ".routes.js"));
    Assoc("src", ['/'], n + ['/'] + (n + ".routes.js"));
  }

  /** `.`, then down three plain components. */
  lemma WalkHereThree(d: Path, a: string, b: string, c: string)
    requires !Special(a) && !Special(b) && !Special(c)
    ensures Walk(d, [".", a, b, c]) == d + [a, b, c]
  {
    var parts := [".", a, b, c];
    assert parts[0] == "." && parts[1..] == [a, b, c];
    WalkDown(d, [a, b, c]);
  }

  /** `app.js`, in the project directory, requires `./src/<n>/<n>.routes`:
      the router the model loop wrote. */
  lemma RouterFound(r: Path, n: string)
    requires PlainName(n)
    ensures Resolve(r, Wiring.RoutesModule(n)) == RoutesPath(r, n)
  {
    var file := n + ".routes.js";
    RouterTarget(n);
    NotInConcat('/', n, ".routes.js");
    SplitOnCons(".", '/', "src" + ['/'] + (n + ['/'] + file));
    SplitThree("src", n, file);
    WalkHereThree(r, "src", n, file);
    Assoc(r, ["src", n], [file]);
  }

  // ---------------------------------------------------------------------------
  // A finished run

  predicate PlainNames(models: seq<Model>) {
    forall i :: 0 <= i < |models| ==> PlainName(ModelNames(models)[i])
  }

  /** Each router that `app.js` requires is a file the run wrote, holding
      that model's router. */
  lemma RunRoutersWired(s: Store, src: Sources, cfg: Config, models: seq<Model>, k: nat)
    requires src.placeholder != [] && Valid(s) && RunSpec(s, src, cfg, models).Done?
    requires PlainNames(models) && k < |models|
    ensures var r := ProjectDir(s, cfg);
      var n := ModelNames(models)[k];
      && Resolve(r, Wiring.RoutesModule(n)) == RoutesPath(r, n)
      && RoutesPath(r, n) in RunSpec(s, src, cfg, models).store.files
      && Contents(RunSpec(s, src, cfg, models).store, RoutesPath(r, n)) == src.routes(n)
  {
    var r := ProjectDir(s, cfg);
    var n := ModelNames(models)[k];
    RouterFound(r, n);
    RunWritesModels(s, src, cfg, models);
    ModelFiles(RunSpec(s, src, cfg, models).store, src, r, ModelNames(models), k);
  }

  /** The controller the first script's router requires, `./<n>.controller`,
      is a file the run wrote, holding that model's controller. */
  lemma RunControllersWired(s: Store, src: Sources, cfg: Config, models: seq<Model>, k: nat)
    requires src.placeholder != [] && Valid(s) && RunSpec(s, src, cfg, models).Done?
    requires PlainNames(models) && k < |models|
    ensures var r := ProjectDir(s, cfg);
      var n := ModelNames(models)[k];
      && Resolve(ModelDir(r, n), "./" + n + ".controller") == ControllerPath(r, n)
      && ControllerPath(r, n) in RunSpec(s, src, cfg, models).store.files
      && Contents(RunSpec(s, src, cfg, models).store, ControllerPath(r, n)) == src.controller(n)
  {
    var r := ProjectDir(s, cfg);
    var n := ModelNames(models)[k];
    HammerControllerFound(r, n);
    RunWritesModels(s, src, cfg, models);
    ModelFiles(RunSpec(s, src, cfg, models).store, src, r, ModelNames(models), k);
  }

  /** The controller the second script's router requires,
      `../controllers/<n>_controller`, is none of the files the model loop
      writes. */
  lemma RunControllersMissing(s: Store, src: Sources, cfg: Config, models: seq<Model>, k: nat, j: nat)
    requires PlainNames(models) && k < |models| && j < |models|
    ensures var r := ProjectDir(s, cfg);
      var n := ModelNames(models)[k];
      var m := ModelNames(models)[j];
      var sought := Resolve(ModelDir(r, n), "../controllers/" + n + "_controller");
      sought != ControllerPath(r, m) && sought != RoutesPath(r, m)
  {
    var r := ProjectDir(s, cfg);
    var n := ModelNames(models)[k];
    GenerateControllerSought(r, n);
    GenerateControllerMissing(r, n, ModelNames(models)[j]);
  }
}
