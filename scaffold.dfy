/** One run of either scaffolding script over the file store: the existence
    guard, the template copy and its two rewritten files, the models appended
    to the Prisma schema, one directory per model with its controller and
    router, and the routes wired into `app.js`. The two scripts differ in
    their placeholder, in the controller and router they write, and in the
    root route of `app.js`. */
module Scaffold {
  import opened Text
  import opened Files
  import opened Template
  import opened Schema

  /** What a script writes besides the template: its placeholder, and the
      text of the schema models, of each model's controller and router, and
      of the application, as functions of what they are built from. */
  datatype Sources = Sources(
    placeholder: string,
    schema: seq<Model> -> string,
    controller: string -> string,
    routes: string -> string,
    app: (seq<string>, int) -> string)

  /** The two keys the scripts read from their configuration file. */
  datatype Config = Config(projectName: string, projectPort: int)

  /** The run stops at the guard, stops where Python would raise, or finishes. */
  datatype Result = Aborted | Failed | Done(store: Store)

  // ---------------------------------------------------------------------------
  // The run, phase by phase, as functions of the store

  /** Copy the template, enter it, rewrite `package.json` and `.env`, and come back. */
  function SetUp(s: Store, src: Sources, cfg: Config): Option<Store>
    requires src.placeholder != []
  {
    var copied :- AfterCopyTree(s, src.placeholder, cfg.projectName);
    var inside :- AfterChdir(copied, cfg.projectName);
    var rewritten :- Rewrite(inside, src.placeholder, cfg);
    AfterChdir(rewritten, "..")
  }

  /** Inside the copy: the name pass over `package.json`, then both passes over `.env`. */
  function Rewrite(s: Store, placeholder: string, cfg: Config): Option<Store>
    requires placeholder != []
  {
    var package :- FileAt(s, "package.json");
    var renamed :- AfterWrite(s, "package.json", PackageText(package, placeholder, cfg.projectName));
    var env :- FileAt(renamed, ".env");
    AfterWrite(renamed, ".env", EnvText(env, placeholder, cfg.projectName, cfg.projectPort))
  }

  /** Append the models to `prisma/schema.prisma` and move to the project's `src`. */
  function WithSchema(s: Store, src: Sources, cfg: Config, models: seq<Model>): Option<Store> {
    var project :- AfterChdir(s, cfg.projectName);
    var prisma :- AfterChdir(project, "prisma");
    var appended :- AfterAppend(prisma, "schema.prisma", src.schema(models));
    var back :- AfterChdir(appended, "..");
    AfterChdir(back, "src")
  }

  /** The directory of one model, named by its lower-cased name, with its two files. */
  function WithModel(s: Store, src: Sources, m: Model): Option<Store> {
    var n := Lower(m.name);
    var made :- AfterMkdir(s, n);
    var inside :- AfterChdir(made, n);
    var controller :- AfterWrite(inside, n + ".controller.js", src.controller(n));
    var routes :- AfterWrite(controller, n + ".routes.js", src.routes(n));
    AfterChdir(routes, "..")
  }

  /** The models in order; the first that fails stops the run. */
  function WithModels(s: Store, src: Sources, models: seq<Model>): Option<Store>
    decreases |models|
  {
    if models == [] then Some(s)
    else
      var before :- WithModels(s, src, models[..|models| - 1]);
      WithModel(before, src, models[|models| - 1])
  }

  /** The names the loop collects for `app.js`. */
  function ModelNames(models: seq<Model>): seq<string> {
    seq(|models|, i requires 0 <= i < |models| => Lower(models[i].name))
  }

  /** Back to the project directory and append the application to `app.js`. */
  function WithApp(s: Store, src: Sources, cfg: Config, names: seq<string>): Option<Store> {
    var project :- AfterChdir(s, "..");
    AfterAppend(project, "app.js", src.app(names, cfg.projectPort))
  }

  function Scaffolded(s: Store, src: Sources, cfg: Config, models: seq<Model>): Option<Store>
    requires src.placeholder != []
  {
    var project :- SetUp(s, src, cfg);
    var schema :- WithSchema(project, src, cfg, models);
    var sources :- WithModels(schema, src, models);
    WithApp(sources, src, cfg, ModelNames(models))
  }

  /** The whole run: nothing happens when the project name is taken. */
  function RunSpec(s: Store, src: Sources, cfg: Config, models: seq<Model>): (r: Result)
    requires src.placeholder != []
    ensures r == Aborted <==> NameExists(s, cfg.projectName)
  {
    if NameExists(s, cfg.projectName) then Aborted
    else
      match Scaffolded(s, src, cfg, models)
      case None => Failed
      case Some(t) => Done(t)
  }

  // ---------------------------------------------------------------------------
  // The run as the scripts perform it: one call after another on the workspace

  /** The phase reached `r`: it succeeded exactly when `r` is a store, and the
      workspace is then `r`. On failure the workspace is not specified; the
      calls made before the failure are not undone. */
  predicate Reached(ok: bool, r: Option<Store>, after: Store) {
    ok == r.Some? && (ok ==> after == r.value)
  }

  method SetUpProject(ws: Workspace, src: Sources, cfg: Config) returns (ok: bool)
    requires src.placeholder != []
    modifies ws
    ensures Reached(ok, SetUp(old(ws.State()), src, cfg), ws.State())
  {
    ok := ws.CopyTree(src.placeholder, cfg.projectName);
    if !ok {
      return;
    }
    ok := ws.Chdir(cfg.projectName);
    if !ok {
      return;
    }
    ok := RewriteFiles(ws, src.placeholder, cfg);
    if !ok {
      return;
    }
    ok := ws.Chdir("..");
  }

  method RewriteFiles(ws: Workspace, placeholder: string, cfg: Config) returns (ok: bool)
    requires placeholder != []
    modifies ws
    ensures Reached(ok, Rewrite(old(ws.State()), placeholder, cfg), ws.State())
  {
    var package := ws.Read("package.json");
    if package.None? {
      return false;
    }
    ok := ws.Write("package.json", PackageText(package.value, placeholder, cfg.projectName));
    if !ok {
      return;
    }
    var env := ws.Read(".env");
    if env.None? {
      return false;
    }
    ok := ws.Write(".env", EnvText(env.value, placeholder, cfg.projectName, cfg.projectPort));
  }

  method AddSchema(ws: Workspace, src: Sources, cfg: Config, models: seq<Model>) returns (ok: bool)
    modifies ws
    ensures Reached(ok, WithSchema(old(ws.State()), src, cfg, models), ws.State())
  {
    ok := ws.Chdir(cfg.projectName);
    if !ok {
      return;
    }
    ok := ws.Chdir("prisma");
    if !ok {
      return;
    }
    ok := ws.Append("schema.prisma", src.schema(models));
    if !ok {
      return;
    }
    ok := ws.Chdir("..");
    if !ok {
      return;
    }
    ok := ws.Chdir("src");
  }

  method AddModel(ws: Workspace, src: Sources, m: Model) returns (ok: bool)
    modifies ws
    ensures Reached(ok, WithModel(old(ws.State()), src, m), ws.State())
  {
    var n := Lower(m.name);
    ok := ws.Mkdir(n);
    if !ok {
      return;
    }
    ok := ws.Chdir(n);
    if !ok {
      return;
    }
    ok := ws.Write(n + ".controller.js", src.controller(n));
    if !ok {
      return;
    }
    ok := ws.Write(n + ".routes.js", src.routes(n));
    if !ok {
      return;
    }
    ok := ws.Chdir("..");
  }

  /** The model loop; on success it returns the names collected for `app.js`. */
  method AddModels(ws: Workspace, src: Sources, models: seq<Model>) returns (ok: bool, names: seq<string>)
    modifies ws
    ensures Reached(ok, WithModels(old(ws.State()), src, models), ws.State())
    ensures ok ==> names == ModelNames(models)
  {
    ghost var start := ws.State();
    names := [];
    for i := 0 to |models|
      invariant WithModels(start, src, models[..i]) == Some(ws.State())
      invariant names == ModelNames(models[..i])
    {
      WithModelsSnoc(start, src, models, i);
      ok := AddModel(ws, src, models[i]);
      if !ok {
        FailureStops(start, src, models, i + 1);
        return;
      }
      ModelNamesSnoc(models, i);
      names := names + [Lower(models[i].name)];
    }
    assert models[..|models|] == models;
    ok := true;
  }

  lemma WithModelsSnoc(s: Store, src: Sources, models: seq<Model>, i: nat)
    requires i < |models|
    ensures WithModels(s, src, models[..i + 1])
         == if WithModels(s, src, models[..i]).None? then None
            else WithModel(WithModels(s, src, models[..i]).value, src, models[i])
  {
    assert models[..i + 1][..i] == models[..i];
  }

  lemma ModelNamesSnoc(models: seq<Model>, i: nat)
    requires i < |models|
    ensures ModelNames(models[..i + 1]) == ModelNames(models[..i]) + [Lower(models[i].name)]
  {
  }

  /** Once a model fails, the loop fails whatever follows. */
  lemma {:induction false} FailureStops(s: Store, src: Sources, models: seq<Model>, k: nat)
    requires k <= |models| && WithModels(s, src, models[..k]).None?
    ensures WithModels(s, src, models).None?
    decreases |models|
  {
    if k < |models| {
      var init := models[..|models| - 1];
      assert init[..k] == models[..k];
      FailureStops(s, src, init, k);
    } else {
      assert models[..k] == models;
    }
  }

  method AddApp(ws: Workspace, src: Sources, cfg: Config, names: seq<string>) returns (ok: bool)
    modifies ws
    ensures Reached(ok, WithApp(old(ws.State()), src, cfg, names), ws.State())
  {
    ok := ws.Chdir("..");
    if !ok {
      return;
    }
    ok := ws.Append("app.js", src.app(names, cfg.projectPort));
  }

  /** Either script, start to end. An abort happens before anything is written. */
  method Run(ws: Workspace, src: Sources, cfg: Config, models: seq<Model>) returns (result: Result)
    requires src.placeholder != []
    modifies ws
    ensures result == RunSpec(old(ws.State()), src, cfg, models)
    ensures result.Aborted? ==> ws.State() == old(ws.State())
    ensures result.Done? ==> ws.State() == result.store
  {
    var taken := ws.Exists(cfg.projectName);
    if taken {
      return Aborted;
    }
    var ok := SetUpProject(ws, src, cfg);
    if !ok {
      return Failed;
    }
    ok := AddSchema(ws, src, cfg, models);
    if !ok {
      return Failed;
    }
    var names;
    ok, names := AddModels(ws, src, models);
    if !ok {
      return Failed;
    }
    ok := AddApp(ws, src, cfg, names);
    if !ok {
      return Failed;
    }
    return Done(ws.State());
  }
}
