/** What a finished run leaves behind, phase by phase and as a whole: the
    rewritten template files, the appended schema, one directory per model
    with its two files, the appended application, the directory the run ends
    in, and nothing changed outside the new project. */
module Layout {
  import opened Text
  import opened Files
  import opened Template
  import opened Schema
  import opened Scaffold

  /** Outside `r`, the two stores have the same files with the same contents
      and the same directories. */
  ghost predicate SameOutside(a: Store, b: Store, r: Path) {
    forall p :: !(r <= p) ==>
      && (p in a.files <==> p in b.files)
      && (p in a.files ==> a.files[p] == b.files[p])
      && (p in a.dirs <==> p in b.dirs)
  }

  /** The project directory, the template directory, and the places of the files a run writes. */
  function ProjectDir(s: Store, cfg: Config): Path {
    Here(s, cfg.projectName)
  }

  function TemplateDir(s: Store, src: Sources): Path {
    Here(s, src.placeholder)
  }

  const PackagePath: Path := ["package.json"]
  const EnvPath: Path := [".env"]
  const SchemaPath: Path := ["prisma", "schema.prisma"]
  const AppPath: Path := ["app.js"]

  function ModelDir(project: Path, n: string): Path {
    project + ["src", n]
  }

  function ControllerPath(project: Path, n: string): Path {
    ModelDir(project, n) + [n + ".controller.js"]
  }

  function RoutesPath(project: Path, n: string): Path {
    ModelDir(project, n) + [n + ".routes.js"]
  }

  // ---------------------------------------------------------------------------
  // Setting up

  /** The copy brings every file of the template below the new project and
      touches nothing outside it. */
  lemma CopyEffect(s: Store, src: Sources, cfg: Config)
    requires Valid(s) && !Present(s, ProjectDir(s, cfg))
    requires AfterCopyTree(s, src.placeholder, cfg.projectName).Some?
    ensures var t := AfterCopyTree(s, src.placeholder, cfg.projectName).value;
      && t.cwd == s.cwd
      && ProjectDir(s, cfg) in t.dirs
      && (forall q :: ProjectDir(s, cfg) + q in t.files <==> TemplateDir(s, src) + q in s.files)
      && (forall q :: Contents(t, ProjectDir(s, cfg) + q) == Contents(s, TemplateDir(s, src) + q))
      && (forall q :: ProjectDir(s, cfg) + q in t.dirs <==> TemplateDir(s, src) + q in s.dirs)
      && SameOutside(s, t, ProjectDir(s, cfg))
  {
    var t := AfterCopyTree(s, src.placeholder, cfg.projectName).value;
    var r := ProjectDir(s, cfg);
    var tp := TemplateDir(s, src);
    assert tp + [] == tp && r + [] == r;
    MovedDirAt(s.dirs, tp, r, []);
    forall q
      ensures r + q in t.files <==> tp + q in s.files
      ensures Contents(t, r + q) == Contents(s, tp + q)
    {
      MovedAt(s.files, tp, r, q);
      NothingBelow(s, r, r + q);
    }
    forall q
      ensures r + q in t.dirs <==> tp + q in s.dirs
    {
      MovedDirAt(s.dirs, tp, r, q);
      NothingBelow(s, r, r + q);
    }
    forall p | !(r <= p)
      ensures p !in Moved(s.files, tp, r) && p !in MovedDirs(s.dirs, tp, r)
    {
      if p in Moved(s.files, tp, r) || p in MovedDirs(s.dirs, tp, r) {
        MovedBelow(s, tp, r, p);
      }
    }
  }

  /** Inside the copy, `package.json` gets the name pass and `.env` both passes. */
  lemma RewriteEffect(s: Store, placeholder: string, cfg: Config)
    requires placeholder != [] && Rewrite(s, placeholder, cfg).Some?
    ensures var t := Rewrite(s, placeholder, cfg).value;
      && Here(s, "package.json") in s.files && Here(s, ".env") in s.files
      && t.cwd == s.cwd && t.dirs == s.dirs
      && t.files == s.files[Here(s, "package.json") := PackageText(ReadText(s.files[Here(s, "package.json")]), placeholder, cfg.projectName)]
                           [Here(s, ".env") := EnvText(ReadText(s.files[Here(s, ".env")]), placeholder, cfg.projectName, cfg.projectPort)]
  {
    assert Here(s, "package.json") != Here(s, ".env") by {
      assert Here(s, "package.json")[|s.cwd|] != Here(s, ".env")[|s.cwd|];
    }
  }

  /** The store setting up leaves, in terms of the copy it makes. */
  lemma SetUpStore(s: Store, src: Sources, cfg: Config)
    requires src.placeholder != [] && SetUp(s, src, cfg).Some?
    ensures AfterCopyTree(s, src.placeholder, cfg.projectName).Some?
    ensures var t := SetUp(s, src, cfg).value;
      var c := AfterCopyTree(s, src.placeholder, cfg.projectName).value;
      var r := ProjectDir(s, cfg);
      && r + PackagePath in c.files && r + EnvPath in c.files
      && t.cwd == s.cwd && t.dirs == c.dirs
      && t.files == c.files[r + PackagePath := PackageText(ReadText(c.files[r + PackagePath]), src.placeholder, cfg.projectName)]
                           [r + EnvPath := EnvText(ReadText(c.files[r + EnvPath]), src.placeholder, cfg.projectName, cfg.projectPort)]
  {
    var r := ProjectDir(s, cfg);
    var copied := AfterCopyTree(s, src.placeholder, cfg.projectName).value;
    var inside := copied.(cwd := r);
    assert AfterChdir(copied, cfg.projectName) == Some(inside);
    RewriteEffect(inside, src.placeholder, cfg);
    var rewritten := Rewrite(inside, src.placeholder, cfg).value;
    SetUpUnfold(s, src, cfg, copied, rewritten);
    assert Here(inside, "package.json") == r + PackagePath;
    assert Here(inside, ".env") == r + EnvPath;
    assert Up(r) == s.cwd;
  }

  lemma SetUpUnfold(s: Store, src: Sources, cfg: Config, copied: Store, rewritten: Store)
    requires src.placeholder != [] && SetUp(s, src, cfg).Some?
    requires AfterCopyTree(s, src.placeholder, cfg.projectName) == Some(copied)
    requires Rewrite(copied.(cwd := copied.cwd + [cfg.projectName]), src.placeholder, cfg) == Some(rewritten)
    ensures SetUp(s, src, cfg).value == rewritten.(cwd := Up(rewritten.cwd))
  {
  }

  /** Setting up rewrites the template's `package.json` and `.env` inside the
      project and returns to the directory it started in. */
  lemma SetUpRewrites(s: Store, src: Sources, cfg: Config)
    requires src.placeholder != [] && Valid(s) && !Present(s, ProjectDir(s, cfg))
    requires SetUp(s, src, cfg).Some?
    ensures var t := SetUp(s, src, cfg).value;
      var r := ProjectDir(s, cfg);
      var tp := TemplateDir(s, src);
      && t.cwd == s.cwd
      && tp + PackagePath in s.files && tp + EnvPath in s.files
      && Contents(t, r + PackagePath) == PackageText(ReadText(s.files[tp + PackagePath]), src.placeholder, cfg.projectName)
      && Contents(t, r + EnvPath) == EnvText(ReadText(s.files[tp + EnvPath]), src.placeholder, cfg.projectName, cfg.projectPort)
  {
    var r := ProjectDir(s, cfg);
    var tp := TemplateDir(s, src);
    SetUpStore(s, src, cfg);
    CopyEffect(s, src, cfg);
    var c := AfterCopyTree(s, src.placeholder, cfg.projectName).value;
    var package := PackageText(ReadText(c.files[r + PackagePath]), src.placeholder, cfg.projectName);
    var env := EnvText(ReadText(c.files[r + EnvPath]), src.placeholder, cfg.projectName, cfg.projectPort);
    TwoWrites(c, r, package, env, PackagePath);
    TwoWrites(c, r, package, env, EnvPath);
    assert Contents(c, r + PackagePath) == Contents(s, tp + PackagePath);
    assert Contents(c, r + EnvPath) == Contents(s, tp + EnvPath);
  }

  /** A template `package.json` without the placeholder and without `\r` is
      copied into the project exactly. */
  lemma SetUpPackageKept(s: Store, src: Sources, cfg: Config)
    requires src.placeholder != [] && Valid(s) && !Present(s, ProjectDir(s, cfg))
    requires SetUp(s, src, cfg).Some?
    requires var raw := Contents(s, TemplateDir(s, src) + PackagePath);
      '\r' !in raw && !Occurs(raw, src.placeholder)
    ensures Contents(SetUp(s, src, cfg).value, ProjectDir(s, cfg) + PackagePath) == Contents(s, TemplateDir(s, src) + PackagePath)
  {
    SetUpRewrites(s, src, cfg);
    PackageUntouched(s.files[TemplateDir(s, src) + PackagePath], src.placeholder, cfg.projectName);
  }

  /** A template `package.json` written with Windows line breaks arrives with
      the same lines ending in `\n`, as text-mode reading gives them. */
  lemma SetUpPackageCrlf(s: Store, src: Sources, cfg: Config, lines: seq<string>)
    requires src.placeholder != [] && Valid(s) && !Present(s, ProjectDir(s, cfg))
    requires SetUp(s, src, cfg).Some?
    requires Contents(s, TemplateDir(s, src) + PackagePath) == CrlfText(lines)
    requires forall k :: 0 <= k < |lines| ==> '\r' !in lines[k]
    requires !Occurs(Unlines(lines), src.placeholder)
    ensures Contents(SetUp(s, src, cfg).value, ProjectDir(s, cfg) + PackagePath) == Unlines(lines)
  {
    SetUpRewrites(s, src, cfg);
    ReadCrlf(lines);
    PackageUntouched(Unlines(lines), src.placeholder, cfg.projectName);
  }

  /** What `package.json` and `.env` hold after both are written, and what any other file holds. */
  lemma TwoWrites(b: Store, r: Path, package: string, env: string, q: Path)
    ensures var t := b.(files := b.files[r + PackagePath := package][r + EnvPath := env]);
      && Contents(t, r + q) == (if q == EnvPath then env else if q == PackagePath then package else Contents(b, r + q))
      && (r + q in t.files <==> q == EnvPath || q == PackagePath || r + q in b.files)
  {
    assert (r + PackagePath)[|r|] != (r + EnvPath)[|r|];
    assert (r + q)[|r|..] == q;
    assert (r + PackagePath)[|r|..] == PackagePath;
    assert (r + EnvPath)[|r|..] == EnvPath;
  }

  /** The template's other files arrive in the project as they are. */
  lemma SetUpKeeps(s: Store, src: Sources, cfg: Config, q: Path)
    requires src.placeholder != [] && Valid(s) && !Present(s, ProjectDir(s, cfg))
    requires SetUp(s, src, cfg).Some?
    requires q != PackagePath && q != EnvPath
    ensures ProjectDir(s, cfg) + q in SetUp(s, src, cfg).value.files <==> TemplateDir(s, src) + q in s.files
    ensures Contents(SetUp(s, src, cfg).value, ProjectDir(s, cfg) + q) == Contents(s, TemplateDir(s, src) + q)
  {
    var r := ProjectDir(s, cfg);
    SetUpStore(s, src, cfg);
    CopyEffect(s, src, cfg);
    var c := AfterCopyTree(s, src.placeholder, cfg.projectName).value;
    TwoWrites(c, r, PackageText(ReadText(c.files[r + PackagePath]), src.placeholder, cfg.projectName),
      EnvText(ReadText(c.files[r + EnvPath]), src.placeholder, cfg.projectName, cfg.projectPort), q);
  }

  /** The project's directories are the template's. */
  lemma SetUpDirs(s: Store, src: Sources, cfg: Config, q: Path)
    requires src.placeholder != [] && Valid(s) && !Present(s, ProjectDir(s, cfg))
    requires SetUp(s, src, cfg).Some?
    ensures ProjectDir(s, cfg) + q in SetUp(s, src, cfg).value.dirs <==> TemplateDir(s, src) + q in s.dirs
  {
    SetUpStore(s, src, cfg);
    CopyEffect(s, src, cfg);
  }

  /** Setting up changes nothing outside the project. */
  lemma SetUpOutside(s: Store, src: Sources, cfg: Config)
    requires src.placeholder != [] && Valid(s) && !Present(s, ProjectDir(s, cfg))
    requires SetUp(s, src, cfg).Some?
    ensures SameOutside(s, SetUp(s, src, cfg).value, ProjectDir(s, cfg))
  {
    var r := ProjectDir(s, cfg);
    SetUpStore(s, src, cfg);
    CopyEffect(s, src, cfg);
    var c := AfterCopyTree(s, src.placeholder, cfg.projectName).value;
    OutsideWrites(s, c, r, PackagePath, PackageText(ReadText(c.files[r + PackagePath]), src.placeholder, cfg.projectName),
      EnvPath, EnvText(ReadText(c.files[r + EnvPath]), src.placeholder, cfg.projectName, cfg.projectPort));
  }

  /** Writing two files inside `r` changes nothing outside it. */
  lemma OutsideWrites(a: Store, b: Store, r: Path, q1: Path, v1: string, q2: Path, v2: string)
    requires SameOutside(a, b, r)
    ensures SameOutside(a, b.(files := b.files[r + q1 := v1][r + q2 := v2]), r)
  {
    assert r <= r + q1 && r <= r + q2;
  }

  // ---------------------------------------------------------------------------
  // The schema

  /** The schema phase appends the models to `prisma/schema.prisma` and ends in `src`. */
  lemma WithSchemaStore(s: Store, src: Sources, cfg: Config, models: seq<Model>)
    requires !Special(cfg.projectName) && WithSchema(s, src, cfg, models).Some?
    ensures var t := WithSchema(s, src, cfg, models).value;
      var r := ProjectDir(s, cfg);
      && t.cwd == r + ["src"] && t.dirs == s.dirs
      && t.files == s.files[r + SchemaPath := Contents(s, r + SchemaPath) + src.schema(models)]
  {
    var r := ProjectDir(s, cfg);
    assert (r + ["prisma"]) + ["schema.prisma"] == r + SchemaPath;
    assert Up(r + ["prisma"]) == r;
  }

  /** Appending inside `r` changes nothing outside it. */
  lemma OutsideWrite(a: Store, b: Store, r: Path, q: Path, v: string)
    requires SameOutside(a, b, r)
    ensures SameOutside(a, b.(files := b.files[r + q := v]), r)
  {
    assert r <= r + q;
  }

  // ---------------------------------------------------------------------------
  // The models

  /** One model: a fresh directory named by its lower-cased name, holding its
      controller and its router, and the loop is back where it was. */
  lemma WithModelStore(s: Store, src: Sources, m: Model)
    requires WithModel(s, src, m).Some?
    ensures var t := WithModel(s, src, m).value;
      var n := Lower(m.name);
      && !Special(n) && !Present(s, Here(s, n))
      && t.cwd == s.cwd && t.dirs == s.dirs + {Here(s, n)}
      && t.files == s.files[Here(s, n) + [n + ".controller.js"] := src.controller(n)]
                           [Here(s, n) + [n + ".routes.js"] := src.routes(n)]
  {
    var n := Lower(m.name);
    assert Up(Here(s, n)) == s.cwd;
  }

  /** Files written in two different model directories are different files. */
  lemma ModelFilesApart(c: Path, a: string, b: string, fa: string, fb: string)
    requires a != b
    ensures c + [a] + [fa] != c + [b] + [fb]
  {
    assert (c + [a] + [fa])[|c|] == a;
    assert (c + [b] + [fb])[|c|] == b;
  }

  /** The two files of one model are different files. */
  lemma ModelFilesDiffer(d: Path, n: string)
    ensures d + [n + ".controller.js"] != d + [n + ".routes.js"]
  {
    var c := n + ".controller.js";
    var r := n + ".routes.js";
    assert (d + [c])[|d|] == c && (d + [r])[|d|] == r;
    assert c[|n| + 1] == 'c' && r[|n| + 1] == 'r';
  }

  /** A model's directory and files lie inside the directory the loop runs in. */
  lemma OutsideModel(a: Store, b: Store, c: Path, n: string, v1: string, v2: string)
    requires SameOutside(a, b, c)
    ensures SameOutside(a, b.(dirs := b.dirs + {c + [n]},
                              files := b.files[c + [n] + [n + ".controller.js"] := v1][c + [n] + [n + ".routes.js"] := v2]), c)
  {
    assert c <= c + [n];
    assert c <= c + [n] + [n + ".controller.js"];
    assert c <= c + [n] + [n + ".routes.js"];
  }

  /** What a model's directory holds. */
  ghost predicate HoldsModel(t: Store, src: Sources, d: Path, n: string) {
    && d in t.dirs
    && d + [n + ".controller.js"] in t.files && d + [n + ".routes.js"] in t.files
    && Contents(t, d + [n + ".controller.js"]) == src.controller(n)
    && Contents(t, d + [n + ".routes.js"]) == src.routes(n)
  }

  /** Each name has its directory in `c`, holding its model's files. */
  ghost predicate HoldsAll(t: Store, src: Sources, c: Path, names: seq<string>) {
    forall i :: 0 <= i < |names| ==> HoldsModel(t, src, c + [names[i]], names[i])
  }

  predicate Distinct(names: seq<string>) {
    forall i, j :: 0 <= i < j < |names| ==> names[i] != names[j]
  }

  /** The directories of the named models, inside `c`. */
  function ModelDirs(c: Path, names: seq<string>): set<Path> {
    set i | 0 <= i < |names| :: c + [names[i]]
  }

  /** The controller and router files of the named models, inside `c`. */
  function ModelFileSet(c: Path, names: seq<string>): set<Path> {
    (set i | 0 <= i < |names| :: c + [names[i]] + [names[i] + ".controller.js"])
      + (set i | 0 <= i < |names| :: c + [names[i]] + [names[i] + ".routes.js"])
  }

  /** `b` is `a` with the named models' directories added, and with no file
      changed, added or removed but theirs. */
  ghost predicate AddsModels(a: Store, b: Store, c: Path, names: seq<string>) {
    && b.dirs == a.dirs + ModelDirs(c, names)
    && (forall p :: p !in ModelFileSet(c, names) ==> (p in b.files <==> p in a.files) && Contents(b, p) == Contents(a, p))
  }

  lemma ModelSetsSnoc(c: Path, names: seq<string>, n: string)
    ensures ModelDirs(c, names + [n]) == ModelDirs(c, names) + {c + [n]}
    ensures ModelFileSet(c, names + [n])
         == ModelFileSet(c, names) + {c + [n] + [n + ".controller.js"], c + [n] + [n + ".routes.js"]}
  {
    var m := names + [n];
    assert forall i :: 0 <= i < |names| ==> m[i] == names[i];
    assert m[|names|] == n;
  }

  /** One more model adds its directory and its two files and nothing else. */
  lemma AddsStep(a: Store, b: Store, t: Store, c: Path, prev: seq<string>, n: string, v1: string, v2: string)
    requires AddsModels(a, b, c, prev)
    requires t.dirs == b.dirs + {c + [n]}
    requires t.files == b.files[c + [n] + [n + ".controller.js"] := v1][c + [n] + [n + ".routes.js"] := v2]
    ensures AddsModels(a, t, c, prev + [n])
  {
    ModelSetsSnoc(c, prev, n);
  }

  /** Adding a model whose directory did not exist keeps the earlier models'
      files, adds its own, and its name is new. */
  lemma ModelStep(b: Store, t: Store, src: Sources, c: Path, prev: seq<string>, n: string)
    requires t.dirs == b.dirs + {c + [n]}
    requires t.files == b.files[c + [n] + [n + ".controller.js"] := src.controller(n)]
                               [c + [n] + [n + ".routes.js"] := src.routes(n)]
    requires !Present(b, c + [n]) && HoldsAll(b, src, c, prev) && Distinct(prev)
    ensures HoldsAll(t, src, c, prev + [n]) && Distinct(prev + [n])
  {
    var names := prev + [n];
    ModelFilesDiffer(c + [n], n);
    forall i | 0 <= i < |prev|
      ensures HoldsModel(t, src, c + [names[i]], names[i]) && names[i] != n
    {
      var k := prev[i];
      assert names[i] == k;
      assert HoldsModel(b, src, c + [k], k);
      ModelFilesApart(c, k, n, k + ".controller.js", n + ".controller.js");
      ModelFilesApart(c, k, n, k + ".controller.js", n + ".routes.js");
      ModelFilesApart(c, k, n, k + ".routes.js", n + ".controller.js");
      ModelFilesApart(c, k, n, k + ".routes.js", n + ".routes.js");
    }
    assert names[|prev|] == n;
  }

  /** The loop makes one directory per model, each holding that model's
      controller and router; it fails unless the lower-cased names are all
      different; it ends where it started, changes nothing outside it, and
      inside it adds only the models' directories and changes no file but
      their controllers and routers. */
  lemma {:induction false} WithModelsEffect(s: Store, src: Sources, models: seq<Model>)
    requires WithModels(s, src, models).Some?
    ensures var t := WithModels(s, src, models).value;
      && t.cwd == s.cwd
      && HoldsAll(t, src, s.cwd, ModelNames(models))
      && Distinct(ModelNames(models))
      && SameOutside(s, t, s.cwd)
      && AddsModels(s, t, s.cwd, ModelNames(models))
    decreases |models|
  {
    if models == [] {
      assert ModelDirs(s.cwd, []) == {};
    } else {
      var k := |models| - 1;
      var init := models[..k];
      WithModelsEffect(s, src, init);
      var b := WithModels(s, src, init).value;
      WithModelStore(b, src, models[k]);
      var n := Lower(models[k].name);
      assert models[..k + 1] == models;
      ModelNamesSnoc(models, k);
      var t := WithModels(s, src, models).value;
      ModelStep(b, t, src, s.cwd, ModelNames(init), n);
      OutsideModel(s, b, s.cwd, n, src.controller(n), src.routes(n));
      AddsStep(s, b, t, s.cwd, ModelNames(init), n, src.controller(n), src.routes(n));
    }
  }

  // ---------------------------------------------------------------------------
  // The application

  /** The last phase goes back to the project directory and appends to `app.js`. */
  lemma WithAppStore(s: Store, src: Sources, cfg: Config, names: seq<string>)
    requires WithApp(s, src, cfg, names).Some?
    ensures var t := WithApp(s, src, cfg, names).value;
      && t.cwd == Up(s.cwd) && t.dirs == s.dirs
      && t.files == s.files[Up(s.cwd) + AppPath := Contents(s, Up(s.cwd) + AppPath) + src.app(names, cfg.projectPort)]
  {
  }

  // ---------------------------------------------------------------------------
  // The whole run

  /** The three stores between the phases of a finished run, and the stores
      it ends in. */
  lemma RunSteps(s: Store, src: Sources, cfg: Config, models: seq<Model>) returns (a: Store, b: Store, c: Store)
    requires src.placeholder != [] && RunSpec(s, src, cfg, models).Done?
    ensures !Special(cfg.projectName) && !Present(s, ProjectDir(s, cfg))
    ensures Phases(s, a, b, c, RunSpec(s, src, cfg, models).store, src, cfg, models)
  {
    a := SetUp(s, src, cfg).value;
    b := WithSchema(a, src, cfg, models).value;
    c := WithModels(b, src, models).value;
  }

  ghost predicate Phases(s: Store, a: Store, b: Store, c: Store, t: Store, src: Sources, cfg: Config, models: seq<Model>) {
    && src.placeholder != []
    && SetUp(s, src, cfg) == Some(a)
    && WithSchema(a, src, cfg, models) == Some(b)
    && WithModels(b, src, models) == Some(c)
    && WithApp(c, src, cfg, ModelNames(models)) == Some(t)
  }

  /** After setting up: the schema append, the model directories inside
      `src`, and the `app.js` append, all inside the project `r`. */
  ghost predicate Tail(a: Store, b: Store, c: Store, t: Store, r: Path, schema: string, app: string) {
    && b.files == a.files[r + SchemaPath := Contents(a, r + SchemaPath) + schema] && b.dirs == a.dirs
    && SameOutside(b, c, r + ["src"]) && c.dirs == t.dirs
    && t.files == c.files[r + AppPath := Contents(c, r + AppPath) + app]
  }

  /** The facts each phase contributes, gathered on the stores between them. */
  lemma PhaseFacts(s: Store, a: Store, b: Store, c: Store, t: Store, src: Sources, cfg: Config, models: seq<Model>)
    requires Valid(s) && !Special(cfg.projectName) && !Present(s, ProjectDir(s, cfg))
    requires Phases(s, a, b, c, t, src, cfg, models)
    ensures var r := ProjectDir(s, cfg);
      && a.cwd == s.cwd && b.cwd == r + ["src"] && c.cwd == b.cwd && t.cwd == r
      && Tail(a, b, c, t, r, src.schema(models), src.app(ModelNames(models), cfg.projectPort))
  {
    var r := ProjectDir(s, cfg);
    SetUpRewrites(s, src, cfg);
    assert ProjectDir(a, cfg) == r;
    WithSchemaStore(a, src, cfg, models);
    WithModelsEffect(b, src, models);
    WithAppStore(c, src, cfg, ModelNames(models));
    assert Up(r + ["src"]) == r;
  }

  /** The project's top-level files other than `src`, `prisma` and `app.js`
      are not touched after setting up. */
  lemma TailKeeps(a: Store, b: Store, c: Store, t: Store, r: Path, schema: string, app: string, q: Path)
    requires Tail(a, b, c, t, r, schema, app)
    requires q != [] && q[0] != "src" && q[0] != SchemaPath[0] && q[0] != AppPath[0]
    ensures Contents(t, r + q) == Contents(a, r + q)
  {
    assert (r + q)[|r|] == q[0];
    assert (r + SchemaPath)[|r|] == SchemaPath[0] && (r + AppPath)[|r|] == AppPath[0];
    assert !(r + ["src"] <= r + q) by {
      assert (r + ["src"])[|r|] == "src";
    }
  }

  lemma TailSchema(a: Store, b: Store, c: Store, t: Store, r: Path, schema: string, app: string)
    requires Tail(a, b, c, t, r, schema, app)
    ensures Contents(t, r + SchemaPath) == Contents(a, r + SchemaPath) + schema
  {
    assert (r + SchemaPath)[|r|] == SchemaPath[0] && (r + AppPath)[|r|] == AppPath[0];
    assert !(r + ["src"] <= r + SchemaPath) by {
      assert (r + ["src"])[|r|] == "src";
    }
  }

  lemma TailApp(a: Store, b: Store, c: Store, t: Store, r: Path, schema: string, app: string)
    requires Tail(a, b, c, t, r, schema, app)
    ensures Contents(t, r + AppPath) == Contents(a, r + AppPath) + app
  {
    assert (r + SchemaPath)[|r|] == SchemaPath[0] && (r + AppPath)[|r|] == AppPath[0];
    assert !(r + ["src"] <= r + AppPath) by {
      assert (r + ["src"])[|r|] == "src";
    }
  }

  lemma TailOutside(s: Store, a: Store, b: Store, c: Store, t: Store, r: Path, schema: string, app: string)
    requires Tail(a, b, c, t, r, schema, app) && SameOutside(s, a, r)
    ensures SameOutside(s, t, r)
  {
    OutsideWrite(s, a, r, SchemaPath, Contents(a, r + SchemaPath) + schema);
    assert SameOutside(s, b, r);
    OutsideWiden(b, c, r, "src");
    OutsideChain(s, b, c, r);
    OutsideWrite(s, c, r, AppPath, Contents(c, r + AppPath) + app);
  }

  lemma OutsideChain(a: Store, b: Store, c: Store, r: Path)
    requires SameOutside(a, b, r) && SameOutside(b, c, r)
    ensures SameOutside(a, c, r)
  {
  }

  /** What is the same outside `r + [sub]` is the same outside `r`. */
  lemma OutsideWiden(b: Store, c: Store, r: Path, sub: string)
    requires SameOutside(b, c, r + [sub])
    ensures SameOutside(b, c, r)
  {
  }

  /** A finished run ends in the project directory. */
  lemma RunEndsInProject(s: Store, src: Sources, cfg: Config, models: seq<Model>)
    requires src.placeholder != [] && Valid(s) && RunSpec(s, src, cfg, models).Done?
    ensures RunSpec(s, src, cfg, models).store.cwd == ProjectDir(s, cfg)
  {
    var a, b, c := RunSteps(s, src, cfg, models);
    PhaseFacts(s, a, b, c, RunSpec(s, src, cfg, models).store, src, cfg, models);
  }

  /** A finished run leaves the template's `package.json` and `.env`, rewritten,
      in the project. */
  lemma RunRewritesTemplate(s: Store, src: Sources, cfg: Config, models: seq<Model>)
    requires src.placeholder != [] && Valid(s) && RunSpec(s, src, cfg, models).Done?
    ensures var t := RunSpec(s, src, cfg, models).store;
      var r := ProjectDir(s, cfg);
      var tp := TemplateDir(s, src);
      && tp + PackagePath in s.files && tp + EnvPath in s.files
      && Contents(t, r + PackagePath) == PackageText(ReadText(s.files[tp + PackagePath]), src.placeholder, cfg.projectName)
      && Contents(t, r + EnvPath) == EnvText(ReadText(s.files[tp + EnvPath]), src.placeholder, cfg.projectName, cfg.projectPort)
  {
    var a, b, c := RunSteps(s, src, cfg, models);
    var t := RunSpec(s, src, cfg, models).store;
    var r := ProjectDir(s, cfg);
    var schema, app := src.schema(models), src.app(ModelNames(models), cfg.projectPort);
    PhaseFacts(s, a, b, c, t, src, cfg, models);
    SetUpRewrites(s, src, cfg);
    TailKeeps(a, b, c, t, r, schema, app, PackagePath);
    TailKeeps(a, b, c, t, r, schema, app, EnvPath);
  }

  /** A finished run appends the models to the template's schema. */
  lemma RunAppendsSchema(s: Store, src: Sources, cfg: Config, models: seq<Model>)
    requires src.placeholder != [] && Valid(s) && RunSpec(s, src, cfg, models).Done?
    ensures Contents(RunSpec(s, src, cfg, models).store, ProjectDir(s, cfg) + SchemaPath)
         == Contents(s, TemplateDir(s, src) + SchemaPath) + src.schema(models)
  {
    var a, b, c := RunSteps(s, src, cfg, models);
    var t := RunSpec(s, src, cfg, models).store;
    PhaseFacts(s, a, b, c, t, src, cfg, models);
    SetUpKeeps(s, src, cfg, SchemaPath);
    TailSchema(a, b, c, t, ProjectDir(s, cfg), src.schema(models), src.app(ModelNames(models), cfg.projectPort));
  }

  /** A finished run appends the application to the template's `app.js`. */
  lemma RunAppendsApp(s: Store, src: Sources, cfg: Config, models: seq<Model>)
    requires src.placeholder != [] && Valid(s) && RunSpec(s, src, cfg, models).Done?
    ensures Contents(RunSpec(s, src, cfg, models).store, ProjectDir(s, cfg) + AppPath)
         == Contents(s, TemplateDir(s, src) + AppPath) + src.app(ModelNames(models), cfg.projectPort)
  {
    var a, b, c := RunSteps(s, src, cfg, models);
    var t := RunSpec(s, src, cfg, models).store;
    PhaseFacts(s, a, b, c, t, src, cfg, models);
    SetUpKeeps(s, src, cfg, AppPath);
    TailApp(a, b, c, t, ProjectDir(s, cfg), src.schema(models), src.app(ModelNames(models), cfg.projectPort));
  }

  /** A finished run has made `src/<name>` for every model, holding its
      controller and router. */
  lemma RunWritesModels(s: Store, src: Sources, cfg: Config, models: seq<Model>)
    requires src.placeholder != [] && Valid(s) && RunSpec(s, src, cfg, models).Done?
    ensures HoldsAll(RunSpec(s, src, cfg, models).store, src, ProjectDir(s, cfg) + ["src"], ModelNames(models))
  {
    var a, b, c := RunSteps(s, src, cfg, models);
    var t := RunSpec(s, src, cfg, models).store;
    var r := ProjectDir(s, cfg);
    PhaseFacts(s, a, b, c, t, src, cfg, models);
    WithModelsEffect(b, src, models);
    HoldsAfterApp(c, t, src, r, ModelNames(models), Contents(c, r + AppPath) + src.app(ModelNames(models), cfg.projectPort));
  }

  /** What `HoldsAll` says about one model, in terms of its paths in the project. */
  lemma ModelFiles(t: Store, src: Sources, r: Path, names: seq<string>, k: nat)
    requires HoldsAll(t, src, r + ["src"], names) && k < |names|
    ensures ModelDir(r, names[k]) in t.dirs
    ensures ControllerPath(r, names[k]) in t.files && RoutesPath(r, names[k]) in t.files
    ensures Contents(t, ControllerPath(r, names[k])) == src.controller(names[k])
    ensures Contents(t, RoutesPath(r, names[k])) == src.routes(names[k])
  {
    var n := names[k];
    assert HoldsModel(t, src, r + ["src"] + [n], n);
    assert r + ["src"] + [n] == ModelDir(r, n);
  }

  /** Appending to `app.js` keeps every model's files. */
  lemma HoldsAfterApp(c: Store, t: Store, src: Sources, r: Path, names: seq<string>, app: string)
    requires HoldsAll(c, src, r + ["src"], names)
    requires t.dirs == c.dirs && t.files == c.files[r + AppPath := app]
    ensures HoldsAll(t, src, r + ["src"], names)
  {
    forall i | 0 <= i < |names|
      ensures HoldsModel(t, src, r + ["src"] + [names[i]], names[i])
    {
      var n := names[i];
      assert HoldsModel(c, src, r + ["src"] + [n], n);
      assert |r + ["src"] + [n] + [n + ".controller.js"]| != |r + AppPath|;
      assert |r + ["src"] + [n] + [n + ".routes.js"]| != |r + AppPath|;
    }
  }

  /** A project path that is none of the four files a run rewrites or appends
      to and none of the models' controllers and routers. */
  predicate Untouched(q: Path, names: seq<string>) {
    && q != PackagePath && q != EnvPath && q != SchemaPath && q != AppPath
    && forall i :: 0 <= i < |names| ==>
         q != ["src", names[i], names[i] + ".controller.js"] && q != ["src", names[i], names[i] + ".routes.js"]
  }

  /** Two paths below `r` are different when their relative parts are. */
  lemma PathsApart(r: Path, q: Path, p: Path)
    requires q != p
    ensures r + q != r + p
  {
    assert (r + q)[|r|..] == q;
    assert (r + p)[|r|..] == p;
  }

  lemma NotModelFile(r: Path, q: Path, names: seq<string>)
    requires Untouched(q, names)
    ensures r + q !in ModelFileSet(r + ["src"], names)
  {
    forall i | 0 <= i < |names|
      ensures r + q != r + ["src"] + [names[i]] + [names[i] + ".controller.js"]
      ensures r + q != r + ["src"] + [names[i]] + [names[i] + ".routes.js"]
    {
      var n := names[i];
      assert r + ["src"] + [n] + [n + ".controller.js"] == r + ["src", n, n + ".controller.js"];
      assert r + ["src"] + [n] + [n + ".routes.js"] == r + ["src", n, n + ".routes.js"];
      PathsApart(r, q, ["src", n, n + ".controller.js"]);
      PathsApart(r, q, ["src", n, n + ".routes.js"]);
    }
  }

  /** Every other file of the template reaches the finished project as it
      was, and the project holds no other file. */
  lemma RunKeeps(s: Store, src: Sources, cfg: Config, models: seq<Model>, q: Path)
    requires src.placeholder != [] && Valid(s) && RunSpec(s, src, cfg, models).Done?
    requires Untouched(q, ModelNames(models))
    ensures var t := RunSpec(s, src, cfg, models).store;
      && (ProjectDir(s, cfg) + q in t.files <==> TemplateDir(s, src) + q in s.files)
      && Contents(t, ProjectDir(s, cfg) + q) == Contents(s, TemplateDir(s, src) + q)
  {
    var a, b, c := RunSteps(s, src, cfg, models);
    var t := RunSpec(s, src, cfg, models).store;
    var r := ProjectDir(s, cfg);
    PhaseFacts(s, a, b, c, t, src, cfg, models);
    SetUpKeeps(s, src, cfg, q);
    WithModelsEffect(b, src, models);
    NotModelFile(r, q, ModelNames(models));
    PathsApart(r, q, SchemaPath);
    PathsApart(r, q, AppPath);
  }

  /** The finished project's directories are the template's and one
      `src/<name>` per model. */
  lemma RunDirs(s: Store, src: Sources, cfg: Config, models: seq<Model>, q: Path)
    requires src.placeholder != [] && Valid(s) && RunSpec(s, src, cfg, models).Done?
    ensures ProjectDir(s, cfg) + q in RunSpec(s, src, cfg, models).store.dirs
        <==> TemplateDir(s, src) + q in s.dirs || exists i :: 0 <= i < |models| && q == ["src", ModelNames(models)[i]]
  {
    var a, b, c := RunSteps(s, src, cfg, models);
    var t := RunSpec(s, src, cfg, models).store;
    var r := ProjectDir(s, cfg);
    PhaseFacts(s, a, b, c, t, src, cfg, models);
    SetUpDirs(s, src, cfg, q);
    WithModelsEffect(b, src, models);
    ModelDirAt(r, q, ModelNames(models));
  }

  /** `r + q` is a model directory inside `r + ["src"]` exactly when `q` is `src/<name>`. */
  lemma ModelDirAt(r: Path, q: Path, names: seq<string>)
    ensures r + q in ModelDirs(r + ["src"], names) <==> exists i :: 0 <= i < |names| && q == ["src", names[i]]
  {
    forall i | 0 <= i < |names|
      ensures r + q == r + ["src"] + [names[i]] <==> q == ["src", names[i]]
    {
      assert r + ["src"] + [names[i]] == r + ["src", names[i]];
      if q != ["src", names[i]] {
        PathsApart(r, q, ["src", names[i]]);
      }
    }
  }

  /** Only a run whose lower-cased model names are all different finishes:
      a second model of the same name finds its directory taken. */
  lemma RunNamesDistinct(s: Store, src: Sources, cfg: Config, models: seq<Model>)
    requires src.placeholder != [] && RunSpec(s, src, cfg, models).Done?
    ensures Distinct(ModelNames(models))
  {
    var a, b, c := RunSteps(s, src, cfg, models);
    WithModelsEffect(b, src, models);
  }

  /** Two models whose names lower-case alike make the run fail. */
  lemma DuplicateNamesFail(s: Store, src: Sources, cfg: Config, models: seq<Model>, i: nat, j: nat)
    requires src.placeholder != [] && i < j < |models|
    requires Lower(models[i].name) == Lower(models[j].name)
    ensures !RunSpec(s, src, cfg, models).Done?
  {
    assert ModelNames(models)[i] == ModelNames(models)[j];
    if RunSpec(s, src, cfg, models).Done? {
      RunNamesDistinct(s, src, cfg, models);
    }
  }

  /** For instance, models `Post` and `post` cannot both be scaffolded. */
  lemma CaseOnlyNamesFail(s: Store, src: Sources, cfg: Config, upper: string, lower: string, fs: seq<Field>, gs: seq<Field>)
    requires src.placeholder != [] && upper == "Post" && lower == "post"
    ensures !RunSpec(s, src, cfg, [Model(upper, fs), Model(lower, gs)]).Done?
  {
    assert Lower(upper) == Lower(lower);
    DuplicateNamesFail(s, src, cfg, [Model(upper, fs), Model(lower, gs)], 0, 1);
  }

  /** A finished run changes nothing outside the new project. */
  lemma RunOutside(s: Store, src: Sources, cfg: Config, models: seq<Model>)
    requires src.placeholder != [] && Valid(s) && RunSpec(s, src, cfg, models).Done?
    ensures SameOutside(s, RunSpec(s, src, cfg, models).store, ProjectDir(s, cfg))
  {
    var a, b, c := RunSteps(s, src, cfg, models);
    var t := RunSpec(s, src, cfg, models).store;
    PhaseFacts(s, a, b, c, t, src, cfg, models);
    SetUpOutside(s, src, cfg);
    TailOutside(s, a, b, c, t, ProjectDir(s, cfg), src.schema(models), src.app(ModelNames(models), cfg.projectPort));
  }
}
