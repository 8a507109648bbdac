/** The two files generate_project.py writes for each model, as line lists,
    exactly as the script writes them: a controller with no enclosing object,
    a stray closing brace after `create`, no closers after the other four
    handlers and an export of a class it never declares; and a router whose
    `require` names `../controllers/<n>_controller`. */
module Generate {
  import opened Text
  import opened Express
  import opened Seqs

  /** What follows the 400 status in every catch branch. */
  const SendError := ").send({ error: error.message })"

  /** The Prisma call of each handler after `prismaClient.<n>`. */
  const CreateQuery := ".create({data: req.body} )"
  const GetAllQuery := ".findMany()"
  const GetOneQuery := ".findUnique({ where: { id: parseInt(req.params.id) } })"
  const UpdateQuery := ".update({ where: { id: parseInt(req.params.id) }, {data: req.body} })"
  const DeleteQuery := ".delete({ where: { id: parseInt(req.params.id) } })"

  const ControllerImports := [
    "const prisma = require('@prisma/client')",
    "const { PrismaClient } = prisma",
    "const prismaClient = new PrismaClient()",
    ""
  ]

  /** The lines written right after the `create` handler. */
  const AfterCreate := ["  }", "}", ""]

  function CrudSpecs(n: string): seq<HandlerSpec> {
    [ HandlerSpec("create", "const " + n + " = await prismaClient." + n + CreateQuery, "201", ").send(" + n + ")"),
      HandlerSpec("getAll", "const " + n + "s = await prismaClient." + n + GetAllQuery, "200", ").send(" + n + "s)"),
      HandlerSpec("getOne", "const " + n + " = await prismaClient." + n + GetOneQuery, "200", ").send(" + n + ")"),
      HandlerSpec("update", "const " + n + " = await prismaClient." + n + UpdateQuery, "200", ").send(" + n + ")"),
      HandlerSpec("delete", "await prismaClient." + n + DeleteQuery, "204", ").send()") ]
  }

  function ExportLine(n: string): string {
    "module.exports = new " + n + "Controller()"
  }

  /** `<n>.controller.js` as written: the imports, `create` followed by
      `  }`, `}` and a blank line, the other four handlers back to back,
      and the export. */
  function ControllerLines(n: string): seq<string> {
    var specs := CrudSpecs(n);
    ControllerImports + (HandlerLines(specs[0], SendError) + (AfterCreate + (RunLines(specs[1..], SendError) + [ExportLine(n)])))
  }

  lemma CrudSpecsStatuses(n: string)
    ensures ThreeDigitStatuses(CrudSpecs(n))
  {
  }

  lemma CrudSpecsWritten(n: string)
    ensures WrittenAll(CrudSpecs(n), SendError) == CrudHandlers(SendError)
  {
  }

  /** How the controller reads: the imports, `create`, the three lines after
      it, the four other handlers with nothing between them, the export. */
  function ControllerOutline(n: string): seq<Item> {
    Layout(Written(CrudSpecs(n)[0], SendError), RunOutline(CrudSpecs(n)[1..], SendError), ExportLine(n))
  }

  function Layout(first: Handler, run: seq<Item>, exportLine: string): seq<Item> {
    LineItems(ControllerImports) + ([HandlerItem(first)] + (LineItems(AfterCreate) + (run + [LineItem(exportLine)])))
  }

  /** No line of the imports or of the lines after `create` is a `try` line. */
  lemma NoTryLines()
    ensures forall k :: 0 <= k < |ControllerImports| ==> ControllerImports[k] != TryLine
    ensures forall k :: 0 <= k < |AfterCreate| ==> AfterCreate[k] != TryLine
  {
  }

  lemma ControllerShape(n: string)
    ensures Outline(ControllerLines(n)) == ControllerOutline(n)
  {
    var specs := CrudSpecs(n);
    var last := [ExportLine(n)];
    var tail := RunLines(specs[1..], SendError) + last;
    var rest := AfterCreate + tail;
    CrudSpecsStatuses(n);
    NoTryLines();
    HandlerStart(specs[0], SendError, rest);
    OutlineLines(ControllerImports, HandlerLines(specs[0], SendError) + rest);
    OutlineHandler(specs[0], SendError, rest);
    RunStart(specs[1..], SendError, last);
    OutlineLines(AfterCreate, tail);
    OutlineRun(specs[1..], SendError, last);
    OutlineOne(ExportLine(n));
  }

  /** All five handlers are written, with the statuses 201/200/200/200/204
      and 400 on failure. */
  lemma ControllerHandlers(n: string)
    ensures HandlersOf(Outline(ControllerLines(n))) == CrudHandlers(SendError)
  {
    var specs := CrudSpecs(n);
    var h := Written(specs[0], SendError);
    var run := RunOutline(specs[1..], SendError);
    var last := [LineItem(ExportLine(n))];
    ControllerShape(n);
    HandlersOfAppend(LineItems(ControllerImports), [HandlerItem(h)] + (LineItems(AfterCreate) + (run + last)));
    HandlersOfAppend([HandlerItem(h)], LineItems(AfterCreate) + (run + last));
    HandlersOfAppend(LineItems(AfterCreate), run + last);
    HandlersOfAppend(run, last);
    HandlersOfLineItems(ControllerImports);
    HandlersOfLineItems(AfterCreate);
    HandlersOfOne(h, ExportLine(n));
    HandlersOfRun(specs[1..], SendError);
    EmptyLeft(HandlersOf([HandlerItem(h)] + (LineItems(AfterCreate) + (run + last))));
    EmptyLeft(HandlersOf(run + last));
    EmptyRight(HandlersOf(run));
    CrudSpecsLength(n);
    WrittenAllCons(specs, SendError);
    CrudSpecsWritten(n);
  }

  /** The imports neither open nor close a brace. */
  lemma ImportsFlat()
    ensures Flat(ControllerImports)
  {
    FlatLine("const prisma = require('@prisma/client')");
    FlatLine("const { PrismaClient } = prisma");
    FlatLine("const prismaClient = new PrismaClient()");
    FlatLine("");
  }

  /** Nor does the export line. */
  lemma ExportFlat(n: string)
    ensures Delta(LineItem(ExportLine(n))) == 0
  {
    var e := ExportLine(n);
    assert e[0] == 'm' && e[|e| - 1] == ')';
    FlatLine(e);
  }

  /** Of the lines after `create`, two close a brace, and the second of them
      closes one below the depth the file started at. */
  lemma AfterCreateNesting()
    ensures DepthAfter(LineItems(AfterCreate), 1) == -1
    ensures !NeverBelow(LineItems(AfterCreate), 1)
    ensures HandlerDepths(LineItems(AfterCreate), 1) == []
  {
    MemberCloses();
    LineItemsThree("  }", "}", "");
    NestingLine("  }", 1);
    NestingLine("}", 0);
    NestingLine("", -1);
    NestingCompose([LineItem("}")], [LineItem("")], 0, -1, -1, [], [], false, false);
    NestingCompose([LineItem("  }")], [LineItem("}")] + [LineItem("")], 1, 0, -1, [], [], true, false);
  }

  /** The controller is not brace-balanced: the `}` after `create` closes a
      brace nothing opened, the four later handlers start at depths -1, 0,
      1 and 2, so they are neither members of an object nor top-level
      functions, and three braces are still open at the end. */
  lemma ControllerNesting(n: string)
    ensures HandlerDepths(Outline(ControllerLines(n)), 0) == [0, -1, 0, 1, 2]
    ensures !NeverBelow(Outline(ControllerLines(n)), 0)
    ensures DepthAfter(Outline(ControllerLines(n)), 0) == 3
  {
    ControllerShape(n);
    OutlineNesting(n);
  }

  lemma OutlineNesting(n: string)
    ensures HandlerDepths(ControllerOutline(n), 0) == [0, -1, 0, 1, 2]
    ensures !NeverBelow(ControllerOutline(n), 0)
    ensures DepthAfter(ControllerOutline(n), 0) == 3
  {
    var specs := CrudSpecs(n);
    CrudSpecsLength(n);
    ImportsFlat();
    ExportFlat(n);
    AfterCreateNesting();
    RunDepths(specs[1..]);
    LayoutNesting(Written(specs[0], SendError), RunOutline(specs[1..], SendError), ExportLine(n), [-1, 0, 1, 2]);
    DepthsList();
  }

  lemma CrudSpecsLength(n: string)
    ensures |CrudSpecs(n)| == 5
  {
  }

  lemma DepthsList()
    ensures [0] + [-1, 0, 1, 2] == [0, -1, 0, 1, 2]
  {
  }

  lemma RunDepths(later: seq<HandlerSpec>)
    requires |later| == 4
    ensures DepthAfter(RunOutline(later, SendError), -1) == 3
    ensures HandlerDepths(RunOutline(later, SendError), -1) == [-1, 0, 1, 2]
  {
    NestingRun(later, SendError, -1);
    assert Range(4, -1, 1) == [-1, 0, 1, 2];
  }

  lemma LayoutNesting(first: Handler, run: seq<Item>, exportLine: string, hr: seq<int>)
    requires Flat(ControllerImports) && Delta(LineItem(exportLine)) == 0
    requires DepthAfter(LineItems(AfterCreate), 1) == -1 && !NeverBelow(LineItems(AfterCreate), 1)
    requires HandlerDepths(LineItems(AfterCreate), 1) == []
    requires DepthAfter(run, -1) == -1 + |hr| && HandlerDepths(run, -1) == hr
    ensures HandlerDepths(Layout(first, run, exportLine), 0) == [0] + hr
    ensures !NeverBelow(Layout(first, run, exportLine), 0)
    ensures DepthAfter(Layout(first, run, exportLine), 0) == -1 + |hr|
  {
    var imports := LineItems(ControllerImports);
    var h := [HandlerItem(first)];
    var after := LineItems(AfterCreate);
    var last := [LineItem(exportLine)];
    var e := -1 + |hr|;
    NestingFlat(ControllerImports, 0);
    assert h[1..] == [];
    NestingLine(exportLine, e);
    NestingCompose(run, last, -1, e, e, hr, [], NeverBelow(run, -1), NeverBelow(last, e));
    NestingCompose(after, run + last, 1, -1, e, [], hr, false, NeverBelow(run + last, -1));
    NestingCompose(h, after + (run + last), 0, 1, e, [0], hr, true, false);
    NestingCompose(imports, h + (after + (run + last)), 0, 0, e, [], [0] + hr, true, false);
  }

  /** `<n>.routes.js`: the requires, the router, the five CRUD routes and the export. */
  function RoutesLines(n: string): seq<string> {
    ScriptRouter(n + "Controller", "../controllers/" + n + "_controller", "")
  }

  /** The router registers exactly the five CRUD routes, in order, each
      against the controller variable. */
  lemma RoutesTable(n: string)
    ensures Registrations(RoutesLines(n), ")") == CrudTable(n + "Controller")
  {
    ScriptRouterTable(n + "Controller", "../controllers/" + n + "_controller", "");
    assert ")" + "" == ")";
  }

  /** The router binds `express`, and the controller variable to `../controllers/<n>_controller`. */
  lemma RoutesBindings(n: string)
    requires ' ' !in n
    ensures Bindings(RoutesLines(n))
         == [Binding("express", "express"), Binding(n + "Controller", "../controllers/" + n + "_controller")]
  {
    NotInConcat(' ', n, "Controller");
    ScriptRouterBindings(n + "Controller", "../controllers/" + n + "_controller", "");
  }

  /** Every route the router registers names a handler the controller text
      contains: the target is the controller variable, a dot and the handler's name. */
  lemma RoutesReachHandlers(n: string)
    ensures forall r :: r in Registrations(RoutesLines(n), ")") ==>
      exists h :: h in HandlersOf(Outline(ControllerLines(n))) && r.target == n + "Controller" + "." + h.name
  {
    RoutesTable(n);
    ControllerHandlers(n);
    CrudTableHandlers(n + "Controller", SendError);
  }
}
