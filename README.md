# FORGE scaffolding scripts in Dafny

FORGE creates a Node.js/Express/Prisma back-end from two YAML files. It does this with one of two
Python scripts, `hammer_out_from_yaml.py` and `generate_project.py`. Each script:

- copies a template project (`mold` or `template`) under the configured project name;
- rewrites `package.json` and `.env`;
- appends one Prisma `model` block per model to `prisma/schema.prisma`;
- creates `src/<name>/` for each model, holding a CRUD controller and an Express router;
- appends the application wiring to `app.js`.

The two scripts differ in:

- the placeholder they copy and replace;
- the controller and router they write, with `;`-terminated lines or without;
- whether `app.js` gets a `GET /` route.

This project models both scripts on a file store and proves properties of what they write.

- `text.dfy` (`Text`): Python's `str.replace`, ASCII `str.lower()` and `str()` of an integer.
  It also has line splitting and the `Option` type.
- `template.dfy` (`Template`): the two template rewrites. `package.json` gets one pass, placeholder to
  name. `.env` gets that pass and then a second one, `3000` to the port.
- `files.dfy` (`Files`): the store, the `os`/`shutil`/`open` calls as functions (`None` where Python
  raises), and `Workspace`, a class whose methods perform those calls in place. Reading is in text
  mode, so `\r\n` and a lone `\r` read as `\n`. It also has Node's
  resolution of a relative `require` to a `.js` file.
- `schema.dfy` (`Schema`): the lines appended to `schema.prisma`, the loop that writes them, and a reader
  proving that the lines give back every model.
- `express.dfy` (`Express`): the shapes of handler, route and `require` lines, with readers that recover
  handlers and statuses, brace nesting, route registrations and module bindings.
- `hammer.dfy` / `generate.dfy` (`Hammer` / `Generate`): each script's controller and router as line lists.
  The second script's controller is reproduced as written: its `create` handler is followed by a stray
  `}` and the other handlers have no closing braces. `hammer.dfy` also holds the example project's
  controller and router for the model `Post`, and proves them equal to what the model writes.
- `wiring.dfy` (`Wiring`): the lines appended to `app.js`, the loop that writes them, and the example
  project's `app.js`.
- `scaffold.dfy` (`Scaffold`): one run, phase by phase, as functions of the store. These are parametric
  in what is written (`Sources`). The imperative run on a `Workspace` is proved equal to them.
- `layout.dfy` (`Layout`): what a finished run leaves in the store.
- `scripts.dfy` (`Scripts`): the two scripts as instances of the run, and where their `require`s lead.

A file's text is the concatenation of its lines, each followed by a newline (`Unlines`). This is what
the scripts' `write(... + "\n")` calls produce on a platform whose line separator is `\n`; the store
is such a file system, and it matches names case-sensitively (see "## Left out").

The routers' `require` lines in `app.js` come right after the two express lines, before the `port`
line (hammer_out_from_yaml.py:159-164).

## Model

| member | source | states |
|---|---|---|
| Text.ReplaceAllLeftmost | hammer_out_from_yaml.py:36 | `replace` rewrites the leftmost occurrence and resumes scanning after it; with `ReplaceAllAbsent` this fixes the result on every input |
| Text.ReplaceAllAbsent | hammer_out_from_yaml.py:36 | text without the pattern comes back unchanged |
| Text.ReplaceAllSelf | hammer_out_from_yaml.py:45 | replacing a pattern by itself changes nothing |
| Text.LowerAt | hammer_out_from_yaml.py:84 | `lower()` keeps the length and maps each character on its own (ASCII upper case to lower case) |
| Text.LowerHasNoUpper | hammer_out_from_yaml.py:84 | a lower-cased name has no upper-case letter |
| Text.LowerIdempotent | hammer_out_from_yaml.py:84 | lower-casing twice is lower-casing once |
| Text.IntToDecimalValue | hammer_out_from_yaml.py:45 | `str(port)` is a decimal rendering that reads back as the port, negative ports included |
| Text.LinesOfUnlines | hammer_out_from_yaml.py:141-149 | a file written line by line splits back into exactly those lines |
| Template.PackageUntouched | hammer_out_from_yaml.py:34-38 | the name pass gives back unchanged a `package.json` text without the placeholder |
| Template.PackageRenamed | generate_project.py:34-38 | a `package.json` holding the placeholder once gets exactly that occurrence replaced by the project name |
| Template.EnvDefaultPort | hammer_out_from_yaml.py:42-47 | with port 3000 the `.env` is rewritten exactly as `package.json` is |
| Template.EnvRewritesName | hammer_out_from_yaml.py:44-45 | the port pass runs after the name pass: for a `.env` holding just the placeholder, every `3000` inside the project name is replaced by the port |
| Template.EnvNameIsPort | hammer_out_from_yaml.py:44-45 | a project named `3000` appears in `.env` as the port's digits |
| Template.EnvOrderMatters | hammer_out_from_yaml.py:44-45 | swapping the two passes gives a different `.env` for a project named `3000` on any other port |
| Template.PortDigits | hammer_out_from_yaml.py:45 | only port 3000 is written as `3000` |
| Files.NothingBelow | hammer_out_from_yaml.py:26 | in a well-formed store nothing exists below a path that does not exist |
| Files.MovedAt | hammer_out_from_yaml.py:26 | a path below the copy's destination holds a file exactly when the same path below the source does, with the same contents |
| Files.MovedDirAt | hammer_out_from_yaml.py:26 | a directory below the copy's destination is one below the source |
| Files.Workspace.Exists | hammer_out_from_yaml.py:20 | `os.path.exists`: `.` and `..` exist, `''` never does, any other name exists when a file or directory of that name is in the current directory |
| Files.Workspace.CopyTree | hammer_out_from_yaml.py:26 | `copytree` succeeds exactly when `AfterCopyTree` does (source a directory, destination absent), and the store becomes its result; otherwise it is unchanged |
| Files.Workspace.Chdir | hammer_out_from_yaml.py:31 | `chdir` moves to a directory of that name, `.` stays, `..` goes up, anything else fails and changes nothing |
| Files.Workspace.Mkdir | hammer_out_from_yaml.py:85 | `mkdir` fails when the name is taken, else adds the directory |
| Files.ReadText | hammer_out_from_yaml.py:34-35 | text-mode reading (universal newlines) leaves no `\r`, keeps text without `\r` as it is, and never lengthens it |
| Files.ReadTextPlain | hammer_out_from_yaml.py:34-35 | text without `\r` is read as it is, whatever follows it |
| Files.ReadCrlf | hammer_out_from_yaml.py:34-35 | lines written with `\r\n` read back as the same lines ending in `\n` |
| Files.Workspace.Read | hammer_out_from_yaml.py:34-35 | reading gives the file's contents as text-mode reading returns them, or nothing when there is no such file |
| Files.Workspace.Write | hammer_out_from_yaml.py:37-38 | writing creates or truncates the file, and fails on a directory |
| Files.Workspace.Append | hammer_out_from_yaml.py:62 | appending puts the text after the file's contents, creating the file when missing |
| Schema.EmitSchema | hammer_out_from_yaml.py:62-72 | the schema loop writes a blank line, then each model's header, its fields in order and `}` and a blank line |
| Schema.SchemaRoundTrip | hammer_out_from_yaml.py:62-72 | reading the appended lines gives back every model by its raw name, in input order, with its fields in order |
| Schema.AnnotatedExactlyId | hammer_out_from_yaml.py:67-70 | a field line carries `@id @default(autoincrement())` exactly when the field is named `id` |
| Hammer.ControllerShape | hammer_out_from_yaml.py:90-136 | the controller reads as the imports and `module.exports = {`, the five handlers as its members, and the closing `};` |
| Hammer.ControllerHandlers | hammer_out_from_yaml.py:90-136 | the controller defines create, getAll, getOne, update and delete, in that order, replying 201, 200, 200, 200 and 204 on success and 400 on failure |
| Hammer.ControllerNesting | hammer_out_from_yaml.py:95-136 | every handler sits at brace depth 1 inside `module.exports = {`, depth never goes negative, and the file ends balanced |
| Hammer.RoutesTable | hammer_out_from_yaml.py:144-148 | the router registers POST `/`, GET `/`, GET `/:id`, PUT `/:id` and DELETE `/:id`, in that order, against the controller's five handlers |
| Hammer.RoutesBindings | hammer_out_from_yaml.py:141-142 | the router requires `express` and `./<n>.controller`, and nothing else |
| Hammer.RoutesReachHandlers | hammer_out_from_yaml.py:139-149 | every registered route targets a handler the controller defines |
| Hammer.ExamplePost | yaas/src/post/post.controller.js:1-46 | for the model `Post`, the controller the script writes is, line for line, the repository's `post.controller.js`, and its router is `post.routes.js` (yaas/src/post/post.routes.js:1-11) |
| Generate.ControllerShape | generate_project.py:88-138 | the controller reads as the imports, `create`, the stray `}` lines, the four other handlers back to back, and the export |
| Generate.ControllerHandlers | generate_project.py:88-138 | the controller text holds the five handlers in order, replying 201, 200, 200, 200 and 204 and 400 on failure |
| Generate.ControllerNesting | generate_project.py:88-138 | as written the braces do not nest: the handlers sit at depths 0, -1, 0, 1 and 2, depth goes negative, and the file ends at depth 3 |
| Generate.RoutesTable | generate_project.py:146-150 | the router registers the same five routes, in the same order |
| Generate.RoutesBindings | generate_project.py:142-143 | the router requires `express` and `../controllers/<n>_controller` |
| Generate.RoutesReachHandlers | generate_project.py:140-152 | every registered route targets a handler named in the controller text |
| Wiring.EmitApp | hammer_out_from_yaml.py:158-174 | the `app.js` loops write the express lines, one require per model, the fixed middle, the optional root route, one mount per model and the listen call |
| Wiring.AppBindings | hammer_out_from_yaml.py:159-162 | `app.js` requires `express`, then each model's router `./src/<n>/<n>.routes` under `<n>_routes`, in model order |
| Wiring.AppRoutes | hammer_out_from_yaml.py:167-172 | the only calls on `app` with a path are the optional `GET /` and one `use('/<n>', <n>_routes)` per model, in order |
| Wiring.MountsRequired | generate_project.py:164-173 | every router `app.js` mounts is one it required |
| Wiring.RootRouteIff | hammer_out_from_yaml.py:169 | the `GET /` line is present exactly when the script writes it (the first script does, the second does not) |
| Wiring.AppListen | hammer_out_from_yaml.py:174 | there is exactly one listen call and it names the configured port |
| Wiring.PortOnlyInMessage | hammer_out_from_yaml.py:164-174 | the server listens on `process.env.PORT` falling back to 3000; the configured port changes only the listen message |
| Wiring.ExampleApp | yaas/app.js:1-14 | for models `user` and `post` and port 3000, the lines the second script appends to `app.js` are, line for line, the example's 14 lines; they require express and the two routers, mount them, carry 3000 in the listen message, and have no `GET /` |
| Scaffold.RunSpec | hammer_out_from_yaml.py:19-23 | the run aborts exactly when the project name exists |
| Scaffold.SetUpProject | hammer_out_from_yaml.py:26-51 | copy, enter, rewrite, leave: the workspace follows `SetUp` |
| Scaffold.RewriteFiles | hammer_out_from_yaml.py:34-47 | reads and rewrites `package.json`, then `.env`, as `Rewrite` says |
| Scaffold.AddSchema | hammer_out_from_yaml.py:58-78 | enters `prisma`, appends the models, and ends in `src`, as `WithSchema` says |
| Scaffold.AddModel | hammer_out_from_yaml.py:84-151 | one model's directory and its two files, as `WithModel` says |
| Scaffold.AddModels | hammer_out_from_yaml.py:82-152 | the model loop follows `WithModels`, and on success returns the lower-cased names in model order (`models_name`) |
| Scaffold.FailureStops | hammer_out_from_yaml.py:83-152 | once one model fails, the loop fails whatever follows |
| Scaffold.AddApp | hammer_out_from_yaml.py:155-174 | goes up to the project and appends the application, as `WithApp` says |
| Scaffold.Run | hammer_out_from_yaml.py:19-174 | the run on the workspace gives `RunSpec`'s result; an abort happens before any change; a finished run leaves the store `RunSpec` names |
| Layout.CopyEffect | hammer_out_from_yaml.py:26 | the copy puts every template file under the project with its contents, and changes nothing outside the project |
| Layout.SetUpRewrites | hammer_out_from_yaml.py:26-51 | after setting up, the project's `package.json` and `.env` hold the rewritten template files, as read in text mode, and the run is back where it started |
| Layout.SetUpPackageKept | hammer_out_from_yaml.py:34-38 | a template `package.json` without the placeholder and without `\r` arrives in the project exactly as it is, on a store whose writes keep `\n` |
| Layout.SetUpPackageCrlf | hammer_out_from_yaml.py:34-38 | a template `package.json` with `\r\n` line breaks and no placeholder arrives with the same lines ending in `\n`, on a store whose writes keep `\n` |
| Layout.SetUpKeeps | hammer_out_from_yaml.py:26 | every other template file reaches the project unchanged |
| Layout.SetUpOutside | hammer_out_from_yaml.py:26-51 | setting up changes nothing outside the project |
| Layout.WithSchemaStore | hammer_out_from_yaml.py:58-78 | the schema phase appends to `prisma/schema.prisma` only and ends in the project's `src` |
| Layout.WithModelStore | hammer_out_from_yaml.py:84-151 | one model adds its directory and its controller and router files, and returns to `src` |
| Layout.WithModelsEffect | hammer_out_from_yaml.py:82-152 | after the loop every model has its directory and both files, the lower-cased names are all different, nothing outside `src` changed, and inside `src` the only new directories are the models' and no file but their controllers and routers changed, appeared or vanished |
| Layout.WithAppStore | hammer_out_from_yaml.py:155-174 | the last phase goes up one directory and appends to `app.js` only |
| Layout.RunEndsInProject | hammer_out_from_yaml.py:155 | a finished run ends in the project directory |
| Layout.RunRewritesTemplate | hammer_out_from_yaml.py:34-47 | a finished run leaves the template's `package.json` and `.env` in the project, read in text mode and rewritten |
| Layout.RunAppendsSchema | hammer_out_from_yaml.py:62-72 | the project's schema is the template's with the models appended |
| Layout.RunAppendsApp | hammer_out_from_yaml.py:158-174 | the project's `app.js` is the template's with the application appended |
| Layout.RunWritesModels | hammer_out_from_yaml.py:83-151 | every model has `src/<name>/` holding the files `<name>.controller.js` and `<name>.routes.js`, which exist and hold the model's controller and router texts |
| Layout.RunNamesDistinct | hammer_out_from_yaml.py:84-85 | only a run whose lower-cased model names are all different finishes |
| Layout.DuplicateNamesFail | hammer_out_from_yaml.py:84-85 | two models whose names lower-case alike make `mkdir` raise |
| Layout.CaseOnlyNamesFail | hammer_out_from_yaml.py:84-85 | models `Post` and `post` cannot both be scaffolded |
| Layout.RunOutside | hammer_out_from_yaml.py:19-174 | a finished run changes nothing outside the new project |
| Layout.RunKeeps | hammer_out_from_yaml.py:26-174 | every project path other than `package.json`, `.env`, `prisma/schema.prisma`, `app.js` and the models' controllers and routers is a file of the finished project exactly when it is one of the template, with the template's contents |
| Layout.RunDirs | hammer_out_from_yaml.py:26-85 | the finished project's directories are the template's and `src/<name>` for each model, and no others |
| Scripts.HammerOut | hammer_out_from_yaml.py:19-174 | the first script is the run with `mold`, its own controller and router, and the root route |
| Scripts.GenerateProject | generate_project.py:19-175 | the second script is the run with `template`, its own controller and router, and no root route |
| Scripts.HammerControllerFound | hammer_out_from_yaml.py:142 | the first router's `require('./<n>.controller')` resolves to the controller written beside it |
| Scripts.GenerateControllerSought | generate_project.py:143 | the second router's `require('../controllers/<n>_controller')` resolves to `src/controllers/<n>_controller.js` |
| Scripts.GenerateControllerMissing | generate_project.py:143 | that path is no model's controller or router file |
| Scripts.RouterFound | hammer_out_from_yaml.py:162 | `app.js`'s `require('./src/<n>/<n>.routes')` resolves to the router the loop wrote |
| Scripts.RunRoutersWired | hammer_out_from_yaml.py:139-162 | after a finished run, each router `app.js` requires is a written file holding that model's router |
| Scripts.RunControllersWired | hammer_out_from_yaml.py:90-142 | after a finished run, the controller the first router requires is a written file holding that model's controller |
| Scripts.RunControllersMissing | generate_project.py:88-143 | the controller the second router requires is none of the files the model loop writes |

## Left out

- Reading `config.yaml`/`config.yml` and `models.yaml`/`models.yml` is left out. The configuration and
  the models are Dafny values.
- The progress messages (`print`) and the exit status of `exit()` are left out, because they do not change
  the store.
- Exceptions are modelled as one `Failed` outcome, and no exception type is modelled. After a failing
  phase the store is not specified (`Reached` constrains it only on success); only a single failing
  `Workspace` call is stated to leave the state as it was.
- Scaffold.Run: says nothing about the workspace after a `Failed` run, because the scripts leave it half
  built and nothing depends on it.
- Text.Lower: models ASCII `str.lower()` only, because model names are expected to be ASCII.
- The store treats a name as a single path component, even one containing `/`. Symbolic links,
  permissions and file metadata are left out.
- Scripts.HammerControllerFound: requires `PlainName` (no `/`, and not `.`, `..` or empty), because a
  `/` inside a model name would make Node resolve extra path components.
- Scripts.GenerateControllerSought: requires `PlainName`, for the same reason.
- Scripts.RouterFound: requires `PlainName`, for the same reason.
- Scripts.RunRoutersWired: requires `PlainName` for every model, for the same reason.
- Scripts.RunControllersWired: requires `PlainName` for every model, for the same reason.
- Scripts.RunControllersMissing: requires `PlainName` for every model, for the same reason.
- Files.AfterWrite: the store models a file system whose text-mode writes keep `\n` as it is. The
  translation of `\n` to `os.linesep` (`\r\n` on Windows) and the `UnicodeEncodeError` raised on text
  the locale's encoding cannot encode are left out; `Files.AfterAppend` has the same limit.
- Files.NameExists: the store matches names case-sensitively, as a POSIX file system does. On a
  case-insensitive file system (the default on macOS and Windows) `os.path.exists("Mold")` is true
  when `mold` is present, and `os.mkdir` fails for a name that differs only in case from an existing
  entry; that matching is left out, and `Files.AfterMkdir` and `Files.AfterCopyTree` have the same limit.
- Files.FileAt: the store holds decoded text. Decoding with the locale's encoding and the
  `UnicodeDecodeError` raised on bytes it cannot decode are left out. Newline translation is modelled
  (`Files.ReadText`).
- Node's module resolution is modelled as `<target>.js` relative to the requiring file's directory.
  Directories with `index.js` and `node_modules` lookups are left out.
- `project_port` is an integer. A YAML string port would go through `str()` unchanged, and that case is
  left out.
- A file's text is written in one piece, as the concatenation of its lines. The sequence of `write` calls
  gives the same text.
- `Scaffold.Run` takes the texts it writes from `SchemaLines` and `AppLines`. The loops
  `Schema.EmitSchema` and `Wiring.EmitApp` are proved to compute exactly those.
- Schema.SchemaRoundTrip: requires field names without spaces and types that do not already end with the
  annotation, because the reader splits on the first space.
- Schema.AnnotatedExactlyId: has the same `Readable` limit as `Schema.SchemaRoundTrip`. A field `x` of
  type `Int @id @default(autoincrement())` is written as `  x Int @id @default(autoincrement())`, with
  nothing added because it is not named `id`, and that line reads back as annotated.
- Hammer.ControllerNesting: checks brace nesting by counting the opening and closing lines. It does not
  parse JavaScript.
- Generate.ControllerNesting: same limit as `Hammer.ControllerNesting`.
- Hammer.RoutesBindings: requires a model name without a space. The scripts write any lower-cased name,
  but with a space the line `const <n>Controller = require(...)` is not a single variable bound to a
  module, and the reader, which takes the variable up to the first space, reads a different binding or
  none.
  Such a file is not valid JavaScript either.
- Generate.RoutesBindings: same limit as `Hammer.RoutesBindings`, for
  `const <n>Controller = require('../controllers/<n>_controller')`.
- Wiring.AppBindings: requires model names without a space, for the same reason, on the lines
  `const <n>_routes = require('./src/<n>/<n>.routes')`.
- Wiring.AppRoutes: requires model names without `'`. With a quote in the name, the path in
  `app.use('/<n>', <n>_routes)` ends early, and the reader, which takes the path up to the next `'`,
  reads a different registration or none.
- Wiring.MountsRequired: requires model names without a space or `'`, because it combines
  `Wiring.AppBindings` and `Wiring.AppRoutes`.
- The second script runs `chdir("..")` inside the `with` block of the router file. All of the file's
  writes come before the `chdir`; only closing the file comes after it, and the file was opened by path
  before it. The model writes the file in full and then changes directory.
