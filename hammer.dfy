/** The two files hammer_out_from_yaml.py writes for each model, as line lists:
    a controller exporting an object literal of five Prisma handlers, and a
    router that registers the five CRUD routes against it. */
module Hammer {
  import opened Text
  import opened Express
  import opened Seqs

  /** What follows the 400 status in every catch branch. */
  const JsonError := ").json({ error: error.message });"

  /** The Prisma call of each handler after `prismaClient.<n>`. */
  const CreateQuery := ".create({ data: req.body });"
  const GetAllQuery := ".findMany();"
  const GetOneQuery := ".findUnique({ where: { id: parseInt(req.params.id) } });"
  const UpdateQuery := ".update({ where: { id: parseInt(req.params.id) }, data: req.body });"
  const DeleteQuery := ".delete({ where: { id: parseInt(req.params.id) } });"

  const ControllerImports := [
    "const prisma = require('@prisma/client');",
    "const { PrismaClient } = prisma;",
    "const prismaClient = new PrismaClient();",
    ""
  ]

  const ExportOpen := "module.exports = {"

  const ControllerPrelude := ControllerImports + [ExportOpen]

  /** The five handlers of `<n>.controller.js`, in the order they are
      written, each with its Prisma call and its success reply. */
  function CrudSpecs(n: string): seq<HandlerSpec> {
    [ HandlerSpec("create", "const " + n + " = await prismaClient." + n + CreateQuery,
        "201", ").json(" + n + ");"),
      HandlerSpec("getAll", "const " + n + "s = await prismaClient." + n + GetAllQuery,
        "200", ").json(" + n + "s);"),
      HandlerSpec("getOne", "const " + n + " = await prismaClient." + n + GetOneQuery,
        "200", ").json(" + n + ");"),
      HandlerSpec("update", "const " + n + " = await prismaClient." + n + UpdateQuery,
        "200", ").json(" + n + ");"),
      HandlerSpec("delete", "await prismaClient." + n + DeleteQuery,
        "204", ").send();") ]
  }

  /** `<n>.controller.js`: the handlers are the members of the exported object. */
  function ControllerLines(n: string): seq<string> {
    ControllerPrelude + (MemberLines(CrudSpecs(n), JsonError) + ["};"])
  }

  lemma CrudSpecsStatuses(n: string)
    ensures ThreeDigitStatuses(CrudSpecs(n))
  {
  }

  /** The handlers the controller writes are the five CRUD handlers, replying
      201/200/200/200/204 on success and 400 on failure. */
  lemma CrudSpecsWritten(n: string)
    ensures WrittenAll(CrudSpecs(n), JsonError) == CrudHandlers(JsonError)
  {
  }

  lemma NoTryLines()
    ensures forall k :: 0 <= k < |ControllerPrelude| ==> ControllerPrelude[k] != TryLine
  {
  }

  /** Every controller hammer writes reads as the prelude opening the exported
      object, the five CRUD handlers as its members, and the object's end. */
  lemma ControllerShape(n: string)
    ensures Outline(ControllerLines(n))
         == LineItems(ControllerPrelude) + (MemberOutline(CrudSpecs(n), JsonError) + [LineItem("};")])
  {
    var specs := CrudSpecs(n);
    CrudSpecsStatuses(n);
    NoTryLines();
    MembersStart(specs, JsonError, ["};"]);
    OutlineLines(ControllerPrelude, MemberLines(specs, JsonError) + ["};"]);
    OutlineMembers(specs, JsonError, ["};"]);
    OutlineOne("};");
  }

  /** The controller defines exactly the five CRUD handlers, in order. */
  lemma ControllerHandlers(n: string)
    ensures HandlersOf(Outline(ControllerLines(n))) == CrudHandlers(JsonError)
  {
    var members := MemberOutline(CrudSpecs(n), JsonError);
    ControllerShape(n);
    HandlersOfAppend(LineItems(ControllerPrelude), members + [LineItem("};")]);
    HandlersOfAppend(members, [LineItem("};")]);
    HandlersOfLineItems(ControllerPrelude);
    HandlersOfOne(Written(CrudSpecs(n)[0], JsonError), "};");
    HandlersOfMembers(CrudSpecs(n), JsonError);
    EmptyLeft(HandlersOf(members + [LineItem("};")]));
    EmptyRight(HandlersOf(members));
    CrudSpecsWritten(n);
  }

  /** The controller is brace-balanced: every handler is a member of the one
      exported object, no brace is closed that was not opened, and none is
      left open at the end. */
  lemma ControllerNesting(n: string)
    ensures HandlerDepths(Outline(ControllerLines(n)), 0) == [1, 1, 1, 1, 1]
    ensures NeverBelow(Outline(ControllerLines(n)), 0)
    ensures DepthAfter(Outline(ControllerLines(n)), 0) == 0
  {
    ControllerShape(n);
    PreludeItems();
    PreludeNesting();
    MemberCloses();
    NestingObject(ControllerImports, ExportOpen, CrudSpecs(n), JsonError, "};");
    CrudSpecsLength(n);
    assert Range(5, 1, 0) == [1, 1, 1, 1, 1];
  }

  lemma CrudSpecsLength(n: string)
    ensures |CrudSpecs(n)| == 5
  {
  }

  lemma PreludeItems()
    ensures LineItems(ControllerPrelude) == LineItems(ControllerImports) + [LineItem(ExportOpen)]
  {
    LineItemsAppend(ControllerImports, [ExportOpen]);
    LineItemsOne(ExportOpen);
  }

  /** The imports neither open nor close a brace; the export line opens one. */
  lemma PreludeNesting()
    ensures Flat(ControllerImports) && Delta(LineItem(ExportOpen)) == 1
  {
    assert Dedent(ExportOpen) == ExportOpen;
    FlatLine("const prisma = require('@prisma/client');");
    FlatLine("const { PrismaClient } = prisma;");
    FlatLine("const prismaClient = new PrismaClient();");
    FlatLine("");
  }

  /** `<n>.routes.js`: the requires, the router, the five CRUD routes and the export. */
  function RoutesLines(n: string): seq<string> {
    ScriptRouter(n + "Controller", "./" + n + ".controller", ";")
  }

  /** The router registers exactly the five CRUD routes, in order, each
      against the controller variable. */
  lemma RoutesTable(n: string)
    ensures Registrations(RoutesLines(n), ");") == CrudTable(n + "Controller")
  {
    ScriptRouterTable(n + "Controller", "./" + n + ".controller", ";");
    assert ")" + ";" == ");";
  }

  /** The router binds `express`, and the controller variable to `./<n>.controller`. */
  lemma RoutesBindings(n: string)
    requires ' ' !in n
    ensures Bindings(RoutesLines(n))
         == [Binding("express", "express"), Binding(n + "Controller", "./" + n + ".controller")]
  {
    NotInConcat(' ', n, "Controller");
    ScriptRouterBindings(n + "Controller", "./" + n + ".controller", ";");
  }

  /** Every route the router registers names a handler the controller defines:
      the target is the controller variable, a dot and the handler's name. */
  lemma RoutesReachHandlers(n: string)
    ensures forall r :: r in Registrations(RoutesLines(n), ");") ==>
      exists h :: h in HandlersOf(Outline(ControllerLines(n))) && r.target == n + "Controller" + "." + h.name
  {
    RoutesTable(n);
    ControllerHandlers(n);
    CrudTableHandlers(n + "Controller", JsonError);
  }



  // The example project: the files written for the model `Post`.

  /** yaas/src/post/post.controller.js, the controller written for the
      model `Post`: its prelude, its five handlers between `  },` lines, and
      the end of the exported object. Lines too long to compare in one piece
      are given in two. */
  const PostController: seq<string> :=
    PostPrelude + PostCreate + ["  },"] + PostGetAll + ["  },"] + PostGetOne + ["  },"]
    + PostUpdate + ["  },"] + PostDelete + ["  }", "};"]

  const PostPrelude := [
    "const prisma = require('@prisma/client');",
    "const { PrismaClient } = prisma;",
    "const prismaClient = new PrismaClient();",
    "",
    "module.exports = {"
  ]

  const PostCreate := [
    "  async create(req, res) {",
    "    try {",
    "      const post = await prismaClient.post" + ".create({ data: req.body });",
    "      return res.status(201).json(post);",
    "    } catch (error) {",
    "      return res.status(400).json({ error: error.message });",
    "    }"
  ]

  const PostGetAll := [
    "  async getAll(req, res) {",
    "    try {",
    "      const posts = await prismaClient.post" + ".findMany();",
    "      return res.status(200).json(posts);",
    "    } catch (error) {",
    "      return res.status(400).json({ error: error.message });",
    "    }"
  ]

  const PostGetOne := [
    "  async getOne(req, res) {",
    "    try {",
    "      const post = await prismaClient.post" + ".findUnique({ where: { id: parseInt(req.params.id) } });",
    "      return res.status(200).json(post);",
    "    } catch (error) {",
    "      return res.status(400).json({ error: error.message });",
    "    }"
  ]

  const PostUpdate := [
    "  async update(req, res) {",
    "    try {",
    "      const post = await prismaClient.post" + ".update({ where: { id: parseInt(req.params.id) }, data: req.body });",
    "      return res.status(200).json(post);",
    "    } catch (error) {",
    "      return res.status(400).json({ error: error.message });",
    "    }"
  ]

  const PostDelete := [
    "  async delete(req, res) {",
    "    try {",
    "      await prismaClient.post" + ".delete({ where: { id: parseInt(req.params.id) } });",
    "      return res.status(204).send();",
    "    } catch (error) {",
    "      return res.status(400).json({ error: error.message });",
    "    }"
  ]

  /** yaas/src/post/post.routes.js: the router written for the model `Post`. */
  const PostRoutes: seq<string> := [
    "const express = require('express');",
    "const postController = require('./post.controller');",
    "const router = express.Router();",
    "",
    "router.post('/', postController.create);",
    "router.get('/', postController.getAll);",
    "router.get('/:id', postController.getOne);",
    "router.put('/:id', postController.update);",
    "router.delete('/:id', postController.delete);",
    "",
    "module.exports = router;"
  ]

  // Each line below is rebuilt from the left, one short piece at a time.

  lemma IndentCall(a: string, b: string, c: string, d: string, q: string)
    ensures "      " + (a + b + c + d + q) == "      " + a + b + c + d + q
  {
  }

  lemma IndentShort(a: string, b: string, q: string)
    ensures "      " + (a + b + q) == "      " + a + b + q
  {
  }

  lemma ReplyParts(p: string, a: string, b: string, c: string)
    ensures p + (a + b + c) == p + a + b + c
  {
  }

  lemma JsonErrorPieces()
    ensures JsonError == ").json(" + "{ error: " + "error.message" + " });"
  {
    assert ").json(" + "{ error: " == ").json({ error: ";
    assert ").json({ error: " + "error.message" == ").json({ error: error.message";
  }

  /** The catch branch's reply. */
  lemma PostFailLine()
    ensures StatusPrefix + "400" + JsonError == "      return res.status(400).json({ error: error.message });"
  {
    JsonErrorPieces();
    var a := StatusPrefix + "400";
    assert a == "      return res.status(400";
    assert a + JsonError == a + ").json(" + "{ error: " + "error.message" + " });";
    assert "      return res.status(400" + ").json(" == "      return res.status(400).json(";
    assert "      return res.status(400).json(" + "{ error: " == "      return res.status(400).json({ error: ";
    assert "      return res.status(400).json({ error: " + "error.message" == "      return res.status(400).json({ error: error.message";
    assert "      return res.status(400).json({ error: error.message" + " });" == "      return res.status(400).json({ error: error.message });";
  }

  lemma ConstPost()
    ensures "      " + "const " + "post" == "      const post"
  {
    assert "      " + "const " == "      const ";
  }

  /** `const post = await prismaClient.post`, indented. */
  lemma PostOneHead()
    ensures "      " + "const " + "post" + " = await prismaClient." + "post" == "      const post = await prismaClient.post"
  {
    ConstPost();
    assert "      const post" + " = await prismaClient." == "      const post = await prismaClient.";
  }

  /** `const posts = await prismaClient.post`, indented. */
  lemma PostAllHead()
    ensures "      " + "const " + "post" + "s = await prismaClient." + "post" == "      const posts = await prismaClient.post"
  {
    ConstPost();
    assert "      const post" + "s = await prismaClient." == "      const posts = await prismaClient.";
  }

  lemma PostCreateCall()
    ensures "      " + CrudSpecs("post")[0].call
         == "      const post = await prismaClient.post" + ".create({ data: req.body });"
  {
    IndentCall("const ", "post", " = await prismaClient.", "post", CreateQuery);
    PostOneHead();
  }

  lemma PostGetAllCall()
    ensures "      " + CrudSpecs("post")[1].call == "      const posts = await prismaClient.post" + ".findMany();"
  {
    IndentCall("const ", "post", "s = await prismaClient.", "post", GetAllQuery);
    PostAllHead();
  }

  lemma PostGetOneCall()
    ensures "      " + CrudSpecs("post")[2].call
         == "      const post = await prismaClient.post" + ".findUnique({ where: { id: parseInt(req.params.id) } });"
  {
    IndentCall("const ", "post", " = await prismaClient.", "post", GetOneQuery);
    PostOneHead();
  }

  lemma PostUpdateCall()
    ensures "      " + CrudSpecs("post")[3].call
         == "      const post = await prismaClient.post" + ".update({ where: { id: parseInt(req.params.id) }, data: req.body });"
  {
    IndentCall("const ", "post", " = await prismaClient.", "post", UpdateQuery);
    PostOneHead();
  }

  lemma AwaitPost()
    ensures "      " + "await prismaClient." + "post" == "      await prismaClient.post"
  {
    assert "      " + "await prismaClient." == "      await prismaClient.";
  }

  lemma PostDeleteCall()
    ensures "      " + CrudSpecs("post")[4].call
         == "      await prismaClient.post" + ".delete({ where: { id: parseInt(req.params.id) } });"
  {
    IndentShort("await prismaClient.", "post", DeleteQuery);
    AwaitPost();
  }

  lemma PostReply201()
    ensures StatusPrefix + "201" + (").json(" + "post" + ");") == "      return res.status(201).json(post);"
  {
    ReplyParts(StatusPrefix + "201", ").json(", "post", ");");
    assert StatusPrefix + "201" == "      return res.status(201";
    assert "      return res.status(201" + ").json(" == "      return res.status(201).json(";
    assert "      return res.status(201).json(" + "post" == "      return res.status(201).json(post";
  }

  lemma PostReply200()
    ensures StatusPrefix + "200" + (").json(" + "post" + ");") == "      return res.status(200).json(post);"
  {
    ReplyParts(StatusPrefix + "200", ").json(", "post", ");");
    assert StatusPrefix + "200" == "      return res.status(200";
    assert "      return res.status(200" + ").json(" == "      return res.status(200).json(";
    assert "      return res.status(200).json(" + "post" == "      return res.status(200).json(post";
  }

  lemma PostsReply200()
    ensures StatusPrefix + "200" + (").json(" + "post" + "s);") == "      return res.status(200).json(posts);"
  {
    ReplyParts(StatusPrefix + "200", ").json(", "post", "s);");
    assert StatusPrefix + "200" == "      return res.status(200";
    assert "      return res.status(200" + ").json(" == "      return res.status(200).json(";
    assert "      return res.status(200).json(" + "post" == "      return res.status(200).json(post";
  }

  lemma SendReply204()
    ensures StatusPrefix + "204" + ").send();" == "      return res.status(204).send();"
  {
    assert StatusPrefix + "204" == "      return res.status(204";
  }

  lemma PostHeaders()
    ensures "  async " + "create" + "(req, res) {" == "  async create(req, res) {"
    ensures "  async " + "getAll" + "(req, res) {" == "  async getAll(req, res) {"
  {
    assert "  async " + "create" == "  async create";
    assert "  async " + "getAll" == "  async getAll";
  }

  lemma MoreHeaders()
    ensures "  async " + "getOne" + "(req, res) {" == "  async getOne(req, res) {"
    ensures "  async " + "update" + "(req, res) {" == "  async update(req, res) {"
    ensures "  async " + "delete" + "(req, res) {" == "  async delete(req, res) {"
  {
    assert "  async " + "getOne" == "  async getOne";
    assert "  async " + "update" == "  async update";
    assert "  async " + "delete" == "  async delete";
  }


  lemma PostCreateLines()
    ensures HandlerLines(CrudSpecs("post")[0], JsonError) == PostCreate
  {
    PostHeaders();
    PostCreateCall();
    PostReply201();
    PostFailLine();
  }

  lemma PostGetAllLines()
    ensures HandlerLines(CrudSpecs("post")[1], JsonError) == PostGetAll
  {
    PostHeaders();
    PostGetAllCall();
    PostsReply200();
    PostFailLine();
  }

  lemma PostGetOneLines()
    ensures HandlerLines(CrudSpecs("post")[2], JsonError) == PostGetOne
  {
    MoreHeaders();
    PostGetOneCall();
    PostReply200();
    PostFailLine();
  }

  lemma PostUpdateLines()
    ensures HandlerLines(CrudSpecs("post")[3], JsonError) == PostUpdate
  {
    MoreHeaders();
    PostUpdateCall();
    PostReply200();
    PostFailLine();
  }

  lemma PostDeleteLines()
    ensures HandlerLines(CrudSpecs("post")[4], JsonError) == PostDelete
  {
    MoreHeaders();
    PostDeleteCall();
    SendReply204();
    PostFailLine();
  }

  /** Five handler blocks as `MemberLines` joins them. */
  lemma MembersFive(hs: seq<HandlerSpec>, f: string)
    requires |hs| == 5
    ensures MemberLines(hs, f)
         == HandlerLines(hs[0], f) + (["  },"] + (HandlerLines(hs[1], f) + (["  },"] + (HandlerLines(hs[2], f)
            + (["  },"] + (HandlerLines(hs[3], f) + (["  },"] + (HandlerLines(hs[4], f) + ["  }"]))))))))
  {
    var t1 := hs[1..];
    var t2 := t1[1..];
    var t3 := t2[1..];
    var t4 := t3[1..];
    assert t1[0] == hs[1] && t2[0] == hs[2] && t3[0] == hs[3] && t4[0] == hs[4];
    assert MemberLines(t4, f) == HandlerLines(hs[4], f) + ["  }"];
    assert MemberLines(t3, f) == HandlerLines(hs[3], f) + (["  },"] + MemberLines(t4, f));
    assert MemberLines(t2, f) == HandlerLines(hs[2], f) + (["  },"] + MemberLines(t3, f));
    assert MemberLines(t1, f) == HandlerLines(hs[1], f) + (["  },"] + MemberLines(t2, f));
  }

  lemma Regroup(p: seq<string>, b0: seq<string>, b1: seq<string>, b2: seq<string>, b3: seq<string>, b4: seq<string>)
    ensures p + ((b0 + (["  },"] + (b1 + (["  },"] + (b2 + (["  },"] + (b3 + (["  },"] + (b4 + ["  }"]))))))))) + ["};"])
         == p + b0 + ["  },"] + b1 + ["  },"] + b2 + ["  },"] + b3 + ["  },"] + b4 + ["  }", "};"]
  {
  }

  lemma PostPreludeLines()
    ensures ControllerPrelude == PostPrelude
  {
  }

  /** The controller the model writes for `post` is, line for line,
      yaas/src/post/post.controller.js. */
  lemma ExamplePostController()
    ensures ControllerLines("post") == PostController
  {
    var hs := CrudSpecs("post");
    MembersFive(hs, JsonError);
    PostCreateLines();
    PostGetAllLines();
    PostGetOneLines();
    PostUpdateLines();
    PostDeleteLines();
    PostPreludeLines();
    Regroup(ControllerPrelude, PostCreate, PostGetAll, PostGetOne, PostUpdate, PostDelete);
  }

  lemma ExpressRequireLine()
    ensures RequireLine("express", "express", ";") == "const express = require('express');"
  {
    assert "const " + "express" == "const express";
    assert "const express" + RequireOpen == "const express = require('";
    assert "const express = require('" + "express" == "const express = require('express";
  }

  lemma PostControllerName()
    ensures "post" + "Controller" == "postController"
    ensures "./" + "post" + ".controller" == "./post.controller"
  {
  }

  lemma RequireHead()
    ensures "const " + "postController" + RequireOpen == "const postController = require('"
  {
    assert "const " + "postController" == "const postController";
  }

  lemma ControllerRequireLine()
    ensures RequireLine("post" + "Controller", "./" + "post" + ".controller", ";")
         == "const postController = require('./post.controller');"
  {
    PostControllerName();
    RequireHead();
    assert "const postController = require('" + "./post.controller" == "const postController = require('./post.controller";
  }

  lemma RouteParts(verb: string, path: string, c: string, h: string, close: string)
    ensures RouteLine(verb, path, c + h, close) == "router." + verb + "('" + path + "', " + c + h + close
  {
  }

  lemma CreateRouteLine()
    ensures RouteLine("post", "/", "postController" + ".create", ");") == "router.post('/', postController.create);"
  {
    RouteParts("post", "/", "postController", ".create", ");");
    assert "router." + "post" == "router.post";
    assert "router.post" + "('" == "router.post('";
    assert "router.post('" + "/" == "router.post('/";
    assert "router.post('/" + "', " == "router.post('/', ";
    assert "router.post('/', " + "postController" == "router.post('/', postController";
    assert "router.post('/', postController" + ".create" == "router.post('/', postController.create";
  }

  lemma GetAllRouteLine()
    ensures RouteLine("get", "/", "postController" + ".getAll", ");") == "router.get('/', postController.getAll);"
  {
    RouteParts("get", "/", "postController", ".getAll", ");");
    assert "router." + "get" == "router.get";
    assert "router.get" + "('" == "router.get('";
    assert "router.get('" + "/" == "router.get('/";
    assert "router.get('/" + "', " == "router.get('/', ";
    assert "router.get('/', " + "postController" == "router.get('/', postController";
    assert "router.get('/', postController" + ".getAll" == "router.get('/', postController.getAll";
  }

  lemma GetOneRouteLine()
    ensures RouteLine("get", "/:id", "postController" + ".getOne", ");") == "router.get('/:id', postController.getOne);"
  {
    RouteParts("get", "/:id", "postController", ".getOne", ");");
    assert "router." + "get" == "router.get";
    assert "router.get" + "('" == "router.get('";
    assert "router.get('" + "/:id" == "router.get('/:id";
    assert "router.get('/:id" + "', " == "router.get('/:id', ";
    assert "router.get('/:id', " + "postController" == "router.get('/:id', postController";
    assert "router.get('/:id', postController" + ".getOne" == "router.get('/:id', postController.getOne";
  }

  lemma UpdateRouteLine()
    ensures RouteLine("put", "/:id", "postController" + ".update", ");") == "router.put('/:id', postController.update);"
  {
    RouteParts("put", "/:id", "postController", ".update", ");");
    assert "router." + "put" == "router.put";
    assert "router.put" + "('" == "router.put('";
    assert "router.put('" + "/:id" == "router.put('/:id";
    assert "router.put('/:id" + "', " == "router.put('/:id', ";
    assert "router.put('/:id', " + "postController" == "router.put('/:id', postController";
    assert "router.put('/:id', postController" + ".update" == "router.put('/:id', postController.update";
  }

  lemma DeleteRouteLine()
    ensures RouteLine("delete", "/:id", "postController" + ".delete", ");") == "router.delete('/:id', postController.delete);"
  {
    RouteParts("delete", "/:id", "postController", ".delete", ");");
    assert "router." + "delete" == "router.delete";
    assert "router.delete" + "('" == "router.delete('";
    assert "router.delete('" + "/:id" == "router.delete('/:id";
    assert "router.delete('/:id" + "', " == "router.delete('/:id', ";
    assert "router.delete('/:id', " + "postController" == "router.delete('/:id', postController";
    assert "router.delete('/:id', postController" + ".delete" == "router.delete('/:id', postController.delete";
  }

  /** The router the model writes for `post` is, line for line,
      yaas/src/post/post.routes.js. */
  lemma ExamplePostRoutes()
    ensures RoutesLines("post") == PostRoutes
  {
    assert ")" + ";" == ");";
    assert "const router = express.Router()" + ";" == "const router = express.Router();";
    assert "module.exports = router" + ";" == "module.exports = router;";
    PostControllerName();
    ExpressRequireLine();
    ControllerRequireLine();
    CreateRouteLine();
    GetAllRouteLine();
    GetOneRouteLine();
    UpdateRouteLine();
    DeleteRouteLine();
  }

  /** For the model `Post` of the example schema, hammer writes exactly the
      controller and the router the repository holds under yaas/src/post. */
  lemma ExamplePost()
    ensures ControllerLines("post") == PostController
    ensures RoutesLines("post") == PostRoutes
  {
    ExamplePostController();
    ExamplePostRoutes();
  }
}
