/** The lines both scripts append to the template's `app.js`: the express
    application, one router module per model required and then mounted under
    the model's name, and the server started on `process.env.PORT`, falling
    back to 3000, with the configured port in its start-up message. */
module Wiring {
  import opened Text
  import opened Seqs
  import opened Express

  const ExpressRequire := RequireLine("express", "express", "")
  const AppLine := "const app = express()"
  const PortLine := "const port = process.env.PORT || 3000"
  const ProjectNameLine := "const project_name = " + "process.env.PROJECT_NAME || 'new_project'"
  const JsonLine := "app." + ("use" + ("(" + "express.json()")) + ")"

  /** The reply of the root route hammer registers. */
  const RootReply := "(req, res) => res.send('Hammer did strike again !')"
  const RootRoute := "app." + RouteCall("get", "/", RootReply) + ")"

  /** The variable holding a model's router, and the module it is required from. */
  function RoutesVar(n: string): string {
    n + "_routes"
  }

  function RoutesModule(n: string): string {
    "./src/" + n + "/" + n + ".routes"
  }

  function ImportLine(n: string): string {
    RequireLine(RoutesVar(n), RoutesModule(n), "")
  }

  /** `app.use('/<n>', <n>_routes)`: the model's router mounted under its name. */
  function MountLine(n: string): string {
    "app." + RouteCall("use", "/" + n, RoutesVar(n)) + ")"
  }

  const ListenMessage := "port, () => " + "console.log(`Server running on port "
  const ListenOpen := "app." + "listen" + "(" + ListenMessage
  const ListenClose := "`))"

  /** The listen call: the server listens on `port`; `str(project_port)` only
      appears in the message it logs. */
  function ListenLine(port: int): string {
    "app." + ("listen" + ("(" + (ListenMessage + IntToDecimal(port) + "`)"))) + ")"
  }

  const AppHead := [ExpressRequire, AppLine]
  const AppMiddle := ["", PortLine, ProjectNameLine, "", JsonLine, ""]

  function RootLines(rootRoute: bool): seq<string> {
    if rootRoute then [RootRoute, ""] else []
  }

  function AppFoot(port: int): seq<string> {
    ["", ListenLine(port)]
  }

  function Imports(names: seq<string>): seq<string> {
    seq(|names|, k requires 0 <= k < |names| => ImportLine(names[k]))
  }

  function Mounts(names: seq<string>): seq<string> {
    seq(|names|, k requires 0 <= k < |names| => MountLine(names[k]))
  }

  /** Everything appended to `app.js`, for the lower-cased model names in
      order; `rootRoute` says whether the `GET /` route is written. */
  function AppLines(names: seq<string>, port: int, rootRoute: bool): seq<string> {
    AppHead + Imports(names) + AppMiddle + RootLines(rootRoute) + Mounts(names) + AppFoot(port)
  }

  /** Writes the lines as the scripts do: the head, one require per model,
      the fixed middle, the root route if any, one mount per model, the listen call. */
  method EmitApp(names: seq<string>, port: int, rootRoute: bool) returns (lines: seq<string>)
    ensures lines == AppLines(names, port, rootRoute)
  {
    lines := [ExpressRequire, AppLine];
    for i := 0 to |names|
      invariant lines == AppHead + Imports(names[..i])
    {
      ImportsSnoc(names, i);
      Assoc(AppHead, Imports(names[..i]), [ImportLine(names[i])]);
      lines := lines + [ImportLine(names[i])];
    }
    assert names[..|names|] == names;
    lines := lines + AppMiddle;
    if rootRoute {
      lines := lines + [RootRoute, ""];
    } else {
      EmptyRight(lines);
    }
    ghost var top := lines;
    for i := 0 to |names|
      invariant lines == top + Mounts(names[..i])
    {
      MountsSnoc(names, i);
      Assoc(top, Mounts(names[..i]), [MountLine(names[i])]);
      lines := lines + [MountLine(names[i])];
    }
    assert names[..|names|] == names;
    lines := lines + ["", ListenLine(port)];
  }

  lemma ImportsSnoc(names: seq<string>, i: nat)
    requires i < |names|
    ensures Imports(names[..i + 1]) == Imports(names[..i]) + [ImportLine(names[i])]
  {
  }

  lemma MountsSnoc(names: seq<string>, i: nat)
    requires i < |names|
    ensures Mounts(names[..i + 1]) == Mounts(names[..i]) + [MountLine(names[i])]
  {
  }

  // ---------------------------------------------------------------------------
  // Reading app.js back

  /** `app.<verb>('<path>', <target>)`: a route the application registers. */
  function AppCallOf(line: string): seq<Registration> {
    if StartsWith(line, "app.") && EndsWith(line, ")") && 5 <= |line| then ReadVerbPath(line[4..|line| - 1])
    else []
  }

  function AppCalls(lines: seq<string>): seq<Registration> {
    Collect(lines, AppCallOf)
  }

  /** The port a listen call names in its message, read back as a number. */
  function ListenOf(line: string): seq<int> {
    if StartsWith(line, ListenOpen) && EndsWith(line, ListenClose) && |ListenOpen| + |ListenClose| <= |line| then
      [DecimalValue(line[|ListenOpen|..|line| - |ListenClose|])]
    else []
  }

  function ListenPorts(lines: seq<string>): seq<int> {
    Collect(lines, ListenOf)
  }

  const RootCall := Registration("get", "/", RootReply)

  /** The routers required, one per model and in the models' order. */
  function RoutesBindings(names: seq<string>): seq<Binding> {
    seq(|names|, k requires 0 <= k < |names| => Binding(RoutesVar(names[k]), RoutesModule(names[k])))
  }

  /** The routers mounted, one per model and in the models' order. */
  function MountCalls(names: seq<string>): seq<Registration> {
    seq(|names|, k requires 0 <= k < |names| => Registration("use", "/" + names[k], RoutesVar(names[k])))
  }

  function RootCalls(rootRoute: bool): seq<Registration> {
    if rootRoute then [RootCall] else []
  }

  // ---------------------------------------------------------------------------
  // Requires

  /** `app.js` requires express and then each model's router, in order. */
  lemma AppBindings(names: seq<string>, port: int, rootRoute: bool)
    requires forall k :: 0 <= k < |names| ==> ' ' !in names[k]
    ensures Bindings(AppLines(names, port, rootRoute)) == [Binding("express", "express")] + RoutesBindings(names)
  {
    HeadBindings();
    ImportsBindings(names);
    MiddleBindsNothing();
    RootBindsNothing(rootRoute);
    MountsBindNothing(names);
    FootBindsNothing(port);
    CollectParts(AppHead, Imports(names), AppMiddle, RootLines(rootRoute), Mounts(names), AppFoot(port), BindingOf,
                 [Binding("express", "express")], RoutesBindings(names), [], [], [], []);
    EmptyTails([Binding("express", "express")], RoutesBindings(names));
  }

  lemma HeadBindings()
    ensures Bindings(AppHead) == [Binding("express", "express")]
  {
    BindingOfRequire("express", "express", "");
    BindingOfPlain(AppLine, |AppLine| - 1);
    CollectTwo(ExpressRequire, AppLine, BindingOf);
  }

  lemma ImportsBindings(names: seq<string>)
    requires forall k :: 0 <= k < |names| ==> ' ' !in names[k]
    ensures Bindings(Imports(names)) == RoutesBindings(names)
  {
    forall k | 0 <= k < |names|
      ensures BindingOf(Imports(names)[k]) == [RoutesBindings(names)[k]]
    {
      NotInConcat(' ', names[k], "_routes");
      BindingOfRequire(RoutesVar(names[k]), RoutesModule(names[k]), "");
    }
    CollectOneEach(Imports(names), RoutesBindings(names), BindingOf);
  }

  lemma MiddleBindsNothing()
    ensures Bindings(AppMiddle) == []
  {
    BindingOfOther("");
    BindingOfOpenEnd(PortLine);
    BindingOfOpenEnd(ProjectNameLine);
    BindingOfOther(JsonLine);
    CollectSix("", PortLine, ProjectNameLine, "", JsonLine, "", BindingOf);
  }


  lemma RootBindsNothing(rootRoute: bool)
    ensures Bindings(RootLines(rootRoute)) == []
  {
    NoBindings(RootLines(rootRoute));
  }

  lemma FootBindsNothing(port: int)
    ensures Bindings(AppFoot(port)) == []
  {
    NoBindings(AppFoot(port));
  }

  lemma MountsBindNothing(names: seq<string>)
    ensures Bindings(Mounts(names)) == []
  {
    NoBindings(Mounts(names));
  }

  /** A line ending with neither `)` nor `;` binds nothing. */
  lemma BindingOfOpenEnd(line: string)
    requires |line| > 0 && line[|line| - 1] != ')' && line[|line| - 1] != ';'
    ensures BindingOf(line) == []
  {
    var last := line[|line| - 1];
    assert line[|line| - 1..] == [last];
    if |line| >= 2 {
      assert line[|line| - 2..] == [line[|line| - 2], last];
    }
    BindingOfUnclosed(line);
  }

  lemma BindingOfUnclosed(line: string)
    requires !EndsWith(line, ";") && !EndsWith(line, "')")
    ensures BindingOf(line) == []
  {
  }

  lemma CollectTwo<T, R>(x: T, y: T, read: T -> seq<R>)
    ensures Collect([x, y], read) == read(x) + read(y)
  {
    assert [x, y][0] == x && [x, y][1..] == [y];
    CollectOne(y, read);
  }

  // ---------------------------------------------------------------------------
  // Routes

  /** `app.js` registers the root route if asked, then mounts each model's
      router under `/<name>`, in the models' order, and nothing else. */
  lemma AppRoutes(names: seq<string>, port: int, rootRoute: bool)
    requires forall k :: 0 <= k < |names| ==> '\'' !in names[k]
    ensures AppCalls(AppLines(names, port, rootRoute)) == RootCalls(rootRoute) + MountCalls(names)
  {
    NoCalls(AppHead);
    ImportsCallNothing(names);
    MiddleCallsNothing();
    RootLinesCalls(rootRoute);
    MountsCalls(names);
    FootCallsNothing(port);
    CollectParts(AppHead, Imports(names), AppMiddle, RootLines(rootRoute), Mounts(names), AppFoot(port), AppCallOf,
                 [], [], [], RootCalls(rootRoute), MountCalls(names), []);
    EmptyTails(RootCalls(rootRoute), MountCalls(names));
  }

  /** A line that does not start with `a` registers nothing. */
  lemma AppCallOther(line: string)
    requires |line| == 0 || line[0] != 'a'
    ensures AppCallOf(line) == []
  {
    if |line| > 0 {
      NotPrefixAt(line, "app.", 0);
    }
  }

  /** Lines none of which starts with `a` register nothing. */
  lemma NoCalls(lines: seq<string>)
    requires forall k :: 0 <= k < |lines| ==> |lines[k]| == 0 || lines[k][0] != 'a'
    ensures AppCalls(lines) == []
  {
    forall k | 0 <= k < |lines|
      ensures AppCallOf(lines[k]) == []
    {
      AppCallOther(lines[k]);
    }
    CollectNone(lines, AppCallOf);
  }

  lemma ImportsStart(names: seq<string>)
    ensures forall k :: 0 <= k < |names| ==> Imports(names)[k][0] == 'c'
  {
    forall k | 0 <= k < |names|
      ensures Imports(names)[k][0] == 'c'
    {
      assert ImportLine(names[k])[0] == 'c';
    }
  }

  lemma ImportsCallNothing(names: seq<string>)
    ensures AppCalls(Imports(names)) == []
  {
    ImportsStart(names);
    NoCalls(Imports(names));
  }

  lemma MiddleCallsNothing()
    ensures AppCalls(AppMiddle) == []
  {
    AppCallOther("");
    assert PortLine[0] == 'c';
    AppCallOther(PortLine);
    IndexLeft("const project_name = ", "process.env.PROJECT_NAME || 'new_project'", 0);
    AppCallOther(ProjectNameLine);
    AppCallNoPath("use", "express.json()");
    CollectSix("", PortLine, ProjectNameLine, "", JsonLine, "", AppCallOf);
  }


  /** A call whose first argument is not a quoted path registers nothing. */
  lemma AppCallNoPath(verb: string, rest: string)
    requires '(' !in verb && (|rest| == 0 || rest[0] != '\'')
    ensures AppCallOf("app." + (verb + ("(" + rest)) + ")") == []
  {
    var open := "(" + rest;
    var body := verb + open;
    Middle("app.", body, ")");
    Cut(verb, open);
    IndexOfFirst(body, '(', |verb|);
    DropConcat(verb, open, 1);
  }

  lemma RootLinesCalls(rootRoute: bool)
    ensures AppCalls(RootLines(rootRoute)) == RootCalls(rootRoute)
  {
    if rootRoute {
      RootRouteCall();
      AppCallOther("");
      CollectTwo(RootRoute, "", AppCallOf);
      EmptyRight([RootCall]);
    }
  }

  lemma RootRouteCall()
    ensures AppCallOf(RootRoute) == [RootCall]
  {
    AppCallOfLine("get", "/", RootReply);
  }

  /** A registration on the application is read back as the verb, path and target it names. */
  lemma AppCallOfLine(verb: string, path: string, target: string)
    requires '(' !in verb && '\'' !in path
    ensures AppCallOf("app." + RouteCall(verb, path, target) + ")") == [Registration(verb, path, target)]
  {
    var body := RouteCall(verb, path, target);
    Middle("app.", body, ")");
    ReadVerbPathOf(verb, path, target);
  }

  lemma MountsCalls(names: seq<string>)
    requires forall k :: 0 <= k < |names| ==> '\'' !in names[k]
    ensures AppCalls(Mounts(names)) == MountCalls(names)
  {
    forall k | 0 <= k < |names|
      ensures AppCallOf(Mounts(names)[k]) == [MountCalls(names)[k]]
    {
      NotInConcat('\'', "/", names[k]);
      AppCallOfLine("use", "/" + names[k], RoutesVar(names[k]));
    }
    CollectOneEach(Mounts(names), MountCalls(names), AppCallOf);
  }

  lemma FootCallsNothing(port: int)
    ensures AppCalls(AppFoot(port)) == []
  {
    ListenCallsNothing(port);
    AppCallOther("");
    CollectTwo("", ListenLine(port), AppCallOf);
  }

  /** The listen call registers no route. */
  lemma ListenCallsNothing(port: int)
    ensures AppCallOf(ListenLine(port)) == []
  {
    var rest := ListenMessage + IntToDecimal(port) + "`)";
    IndexLeft(ListenMessage + IntToDecimal(port), "`)", 0);
    IndexLeft(ListenMessage, IntToDecimal(port), 0);
    IndexLeft("port, () => ", "console.log(`Server running on port ", 0);
    AppCallNoPath("listen", rest);
  }

  /** Every router the application mounts is one it required. */
  lemma MountsRequired(names: seq<string>, port: int, rootRoute: bool)
    requires forall k :: 0 <= k < |names| ==> ' ' !in names[k] && '\'' !in names[k]
    ensures forall r :: r in AppCalls(AppLines(names, port, rootRoute)) && r.verb == "use" ==>
      exists b :: b in Bindings(AppLines(names, port, rootRoute)) && b.variable == r.target
  {
    AppRoutes(names, port, rootRoute);
    AppBindings(names, port, rootRoute);
    MountsBound(names, rootRoute);
  }

  lemma MountsBound(names: seq<string>, rootRoute: bool)
    ensures forall r :: r in RootCalls(rootRoute) + MountCalls(names) && r.verb == "use" ==>
      exists b :: b in [Binding("express", "express")] + RoutesBindings(names) && b.variable == r.target
  {
    var binds := [Binding("express", "express")] + RoutesBindings(names);
    forall r | r in RootCalls(rootRoute) + MountCalls(names) && r.verb == "use"
      ensures exists b :: b in binds && b.variable == r.target
    {
      assert r !in RootCalls(rootRoute);
      var k :| 0 <= k < |names| && MountCalls(names)[k] == r;
      assert binds[1 + k] == RoutesBindings(names)[k];
    }
  }

  /** The root route is written exactly when asked for. */
  lemma RootRouteIff(names: seq<string>, port: int, rootRoute: bool)
    ensures RootRoute in AppLines(names, port, rootRoute) <==> rootRoute
  {
    if rootRoute {
      RootRouteWritten(names, port);
    } else {
      RootRouteAbsent(names, port);
    }
  }

  lemma RootRouteWritten(names: seq<string>, port: int)
    ensures RootRoute in AppLines(names, port, true)
  {
    var pre := AppHead + Imports(names) + AppMiddle;
    var post := RootLines(true) + Mounts(names) + AppFoot(port);
    Halve6(AppHead, Imports(names), AppMiddle, RootLines(true), Mounts(names), AppFoot(port));
    IndexRight(pre, post, 0);
  }

  /** Without the root route no line is `GET /`: every other line is empty,
      starts with `c` (`const ...`), or has something else than `g` where the
      root route has the `g` of `app.get`. */
  lemma RootRouteAbsent(names: seq<string>, port: int)
    ensures RootRoute !in AppLines(names, port, false)
  {
    RootRouteShape();
    forall k | 0 <= k < |names|
      ensures Imports(names)[k] != RootRoute && Mounts(names)[k] != RootRoute
    {
      ImportStart(names[k]);
      MountStart(names[k]);
    }
    FixedNotRoot(port);
    var head := AppHead + Imports(names) + AppMiddle;
    NotInConcat(RootRoute, AppHead, Imports(names));
    NotInConcat(RootRoute, AppHead + Imports(names), AppMiddle);
    EmptyRight(head);
    NotInConcat(RootRoute, head, Mounts(names));
    NotInConcat(RootRoute, head + Mounts(names), AppFoot(port));
  }

  lemma RootRouteShape()
    ensures |RootRoute| > 4 && RootRoute[0] == 'a' && RootRoute[4] == 'g'
  {
  }

  lemma ImportStart(n: string)
    ensures |ImportLine(n)| > 0 && ImportLine(n)[0] == 'c'
  {
  }

  lemma MountStart(n: string)
    ensures |MountLine(n)| > 4 && MountLine(n)[4] == 'u'
  {
  }

  /** The root route is none of the fixed lines. */
  lemma FixedNotRoot(port: int)
    ensures RootRoute !in AppHead && RootRoute !in AppMiddle && RootRoute !in AppFoot(port)
  {
    RootRouteShape();
    assert ExpressRequire[0] == 'c';
    assert JsonLine[4] == 'u';
    assert ProjectNameLine[0] == 'c';
    assert ListenLine(port)[4] == 'l';
  }


  // ---------------------------------------------------------------------------
  // Port

  /** The one listen call names the configured port. */
  lemma AppListen(names: seq<string>, port: int, rootRoute: bool)
    ensures ListenPorts(AppLines(names, port, rootRoute)) == [port]
  {
    ImportsStart(names);
    NoListen(AppHead);
    NoListen(Imports(names));
    MiddleListensNothing();
    RootListensNothing(rootRoute);
    MountsListenNothing(names);
    FootListen(port);
    CollectParts(AppHead, Imports(names), AppMiddle, RootLines(rootRoute), Mounts(names), AppFoot(port), ListenOf,
                 [], [], [], [], [], [port]);
    EmptyTails([port], []);
  }

  lemma ListenOpenChars()
    ensures |ListenOpen| > 4 && ListenOpen[0] == 'a' && ListenOpen[4] == 'l'
  {
  }

  /** A line that does not start with `a` names no port. */
  lemma ListenOfOther(line: string)
    requires |line| == 0 || line[0] != 'a'
    ensures ListenOf(line) == []
  {
    if |line| > 0 {
      ListenOpenChars();
      NotPrefixAt(line, ListenOpen, 0);
    }
  }

  /** Lines none of which starts with `a` name no port. */
  lemma NoListen(lines: seq<string>)
    requires forall k :: 0 <= k < |lines| ==> |lines[k]| == 0 || lines[k][0] != 'a'
    ensures ListenPorts(lines) == []
  {
    forall k | 0 <= k < |lines|
      ensures ListenOf(lines[k]) == []
    {
      ListenOfOther(lines[k]);
    }
    CollectNone(lines, ListenOf);
  }

  /** A line whose fifth character is not the `l` of `listen` names no port. */
  lemma NotListen(line: string)
    requires 4 < |line| && line[4] != 'l'
    ensures ListenOf(line) == []
  {
    ListenOpenChars();
    NotPrefixAt(line, ListenOpen, 4);
  }

  /** `app.<call><close>` names no port when the call is not `listen`. */
  lemma NotListenCall(line: string, call: string, close: string)
    requires line == "app." + call + close && |call| > 0 && call[0] != 'l'
    ensures ListenOf(line) == []
  {
    assert line[4] == call[0];
    NotListen(line);
  }

  lemma JsonListensNothing()
    ensures ListenOf(JsonLine) == []
  {
    NotListenCall(JsonLine, "use" + ("(" + "express.json()"), ")");
  }

  lemma MiddleListensNothing()
    ensures ListenPorts(AppMiddle) == []
  {
    ListenOfOther("");
    assert PortLine[0] == 'c';
    ListenOfOther(PortLine);
    IndexLeft("const project_name = ", "process.env.PROJECT_NAME || 'new_project'", 0);
    ListenOfOther(ProjectNameLine);
    JsonListensNothing();
    CollectSix("", PortLine, ProjectNameLine, "", JsonLine, "", ListenOf);
  }


  lemma RootListensNothing(rootRoute: bool)
    ensures ListenPorts(RootLines(rootRoute)) == []
  {
    if rootRoute {
      assert RootRoute[4] == 'g';
      NotListen(RootRoute);
      ListenOfOther("");
      CollectTwo(RootRoute, "", ListenOf);
    }
  }

  lemma MountsListenNothing(names: seq<string>)
    ensures ListenPorts(Mounts(names)) == []
  {
    forall k | 0 <= k < |names|
      ensures ListenOf(Mounts(names)[k]) == []
    {
      assert MountLine(names[k])[4] == 'u';
      NotListen(MountLine(names[k]));
    }
    CollectNone(Mounts(names), ListenOf);
  }

  lemma FootListen(port: int)
    ensures ListenPorts(AppFoot(port)) == [port]
  {
    ListenOfLine(port);
    ListenOfOther("");
    CollectTwo("", ListenLine(port), ListenOf);
    EmptyLeft([port]);
  }

  /** The listen call is read back as the port it was written with. */
  lemma ListenOfLine(port: int)
    ensures ListenOf(ListenLine(port)) == [port]
  {
    var d := IntToDecimal(port);
    Nest("app.", "listen", "(", ListenMessage, d, "`)", ")");
    assert "`)" + ")" == ListenClose;
    Middle(ListenOpen, d, ListenClose);
    IntToDecimalValue(port);
  }

  /** The configured port changes the listen message and nothing else: the
      server itself listens on `process.env.PORT`, or 3000 when it is unset. */
  lemma PortOnlyInMessage(names: seq<string>, p: int, q: int, rootRoute: bool)
    ensures PortLine in AppLines(names, p, rootRoute)
    ensures |AppLines(names, p, rootRoute)| == |AppLines(names, q, rootRoute)|
    ensures AppLines(names, p, rootRoute)[..|AppLines(names, p, rootRoute)| - 1]
         == AppLines(names, q, rootRoute)[..|AppLines(names, q, rootRoute)| - 1]
    ensures AppLines(names, p, rootRoute) == AppLines(names, q, rootRoute) <==> p == q
  {
    var a := AppLines(names, p, rootRoute);
    var b := AppLines(names, q, rootRoute);
    var top := AppHead + Imports(names) + AppMiddle + RootLines(rootRoute) + Mounts(names);
    assert a[|AppHead| + |Imports(names)| + 1] == PortLine;
    Cut(top + [""], [ListenLine(p)]);
    Cut(top + [""], [ListenLine(q)]);
    if a == b {
      ListenOfLine(p);
      ListenOfLine(q);
      assert a[|a| - 1] == ListenLine(p) && b[|b| - 1] == ListenLine(q);
    }
  }

  // ---------------------------------------------------------------------------
  // The example project

  /** For the models `user` and `post` on port 3000 without the root route,
      as generate_project.py writes it, `app.js` is, line for line, the example
      project's `app.js`: fourteen lines requiring express and the two routers,
      mounting `/user` and `/post`, listening with 3000 in its message, and no
      `GET /`. */
  lemma ExampleApp(user: string, post: string, port: int)
    requires user == "user" && post == "post" && port == 3000
    ensures AppLines([user, post], port, false) == YaasApp
    ensures |AppLines([user, post], port, false)| == 14
    ensures Bindings(AppLines([user, post], port, false))
         == [ Binding("express", "express"),
              Binding("user_routes", "./src/user/user.routes"),
              Binding("post_routes", "./src/post/post.routes") ]
    ensures AppCalls(AppLines([user, post], port, false))
         == [Registration("use", "/user", "user_routes"), Registration("use", "/post", "post_routes")]
    ensures ListenPorts(AppLines([user, post], port, false)) == [3000]
    ensures RootRoute !in AppLines([user, post], port, false)
  {
    ExampleAppLines();
    TwoLength(user, post, port);
    ExampleRequires(user, post, port);
    ExampleMounts(user, post, port);
    ExampleListen(user, post, port);
  }

  lemma ExampleRequires(user: string, post: string, port: int)
    requires user == "user" && post == "post"
    ensures Bindings(AppLines([user, post], port, false))
         == [ Binding("express", "express"),
              Binding("user_routes", "./src/user/user.routes"),
              Binding("post_routes", "./src/post/post.routes") ]
  {
    UserNames();
    PostNames();
    TwoBindings(user, post, port);
    TwoRoutesBindings(user, post);
  }

  lemma ExampleMounts(user: string, post: string, port: int)
    requires user == "user" && post == "post"
    ensures AppCalls(AppLines([user, post], port, false))
         == [Registration("use", "/user", "user_routes"), Registration("use", "/post", "post_routes")]
  {
    UserNames();
    PostNames();
    TwoMounts(user, post, port);
    TwoMountCalls(user, post);
  }

  lemma ExampleListen(user: string, post: string, port: int)
    requires user == "user" && post == "post" && port == 3000
    ensures ListenPorts(AppLines([user, post], port, false)) == [3000]
    ensures RootRoute !in AppLines([user, post], port, false)
  {
    AppListen([user, post], port, false);
    RootRouteIff([user, post], port, false);
  }

  lemma TwoLength(a: string, b: string, port: int)
    ensures |AppLines([a, b], port, false)| == 14
  {
  }

  /** With two models, `app.js` requires express and their two routers. */
  lemma TwoBindings(a: string, b: string, port: int)
    requires ' ' !in a && ' ' !in b
    ensures Bindings(AppLines([a, b], port, false)) == [Binding("express", "express")] + RoutesBindings([a, b])
  {
    AppBindings([a, b], port, false);
  }

  lemma TwoRoutesBindings(a: string, b: string)
    ensures RoutesBindings([a, b]) == [Binding(RoutesVar(a), RoutesModule(a)), Binding(RoutesVar(b), RoutesModule(b))]
  {
  }

  /** With two models, `app.js` mounts their two routers. */
  lemma TwoMounts(a: string, b: string, port: int)
    requires '\'' !in a && '\'' !in b
    ensures AppCalls(AppLines([a, b], port, false)) == MountCalls([a, b])
  {
    AppRoutes([a, b], port, false);
    EmptyLeft(MountCalls([a, b]));
  }

  lemma TwoMountCalls(a: string, b: string)
    ensures MountCalls([a, b]) == [Registration("use", "/" + a, RoutesVar(a)), Registration("use", "/" + b, RoutesVar(b))]
  {
  }

  lemma UserNames()
    ensures RoutesVar("user") == "user_routes" && "/" + "user" == "/user"
    ensures RoutesModule("user") == "./src/user/user.routes"
  {
  }

  lemma PostNames()
    ensures RoutesVar("post") == "post_routes" && "/" + "post" == "/post"
    ensures RoutesModule("post") == "./src/post/post.routes"
  {
  }

  // The example project's `app.js`, and its lines rebuilt from the left one
  // short piece at a time.

  /** yaas/app.js: what generate_project.py appends for the models `user` and
      `post` on port 3000. Lines too long to compare in one piece are given in
      the pieces the model writes them in. */
  const YaasApp := [
    "const express = require('express')",
    "const app = express()",
    "const user_routes = require('./src/user/user.routes')",
    "const post_routes = require('./src/post/post.routes')",
    "",
    "const port = process.env.PORT || 3000",
    "const project_name = " + "process.env.PROJECT_NAME || 'new_project'",
    "",
    "app.use(express.json())",
    "",
    "app.use('/user', user_routes)",
    "app.use('/post', post_routes)",
    "",
    "app.listen(" + "port, () => " + "console.log(`Server running on port " + "3000`))"
  ]

  lemma ExpressRequireText()
    ensures ExpressRequire == "const express = require('express')"
  {
    assert "const " + "express" == "const express";
    assert "const express" + RequireOpen == "const express = require('";
    assert "const express = require('" + "express" == "const express = require('express";
  }

  lemma ImportParts(n: string)
    ensures ImportLine(n) == "const " + RoutesVar(n) + RequireOpen + "./src/" + n + "/" + n + ".routes" + "')"
  {
  }

  lemma UserImportHead()
    ensures "const " + "user_routes" + RequireOpen + "./src/" + "user" == "const user_routes = require('./src/user"
  {
    assert "const " + "user_routes" == "const user_routes";
    assert "const user_routes" + RequireOpen == "const user_routes = require('";
    assert "const user_routes = require('" + "./src/" == "const user_routes = require('./src/";
  }

  lemma UserImportLine()
    ensures ImportLine("user") == "const user_routes = require('./src/user/user.routes')"
  {
    ImportParts("user");
    UserNames();
    UserImportHead();
    assert "const user_routes = require('./src/user" + "/" + "user" == "const user_routes = require('./src/user/user";
  }

  lemma PostImportHead()
    ensures "const " + "post_routes" + RequireOpen + "./src/" + "post" == "const post_routes = require('./src/post"
  {
    assert "const " + "post_routes" == "const post_routes";
    assert "const post_routes" + RequireOpen == "const post_routes = require('";
    assert "const post_routes = require('" + "./src/" == "const post_routes = require('./src/";
  }

  lemma PostImportLine()
    ensures ImportLine("post") == "const post_routes = require('./src/post/post.routes')"
  {
    ImportParts("post");
    PostNames();
    PostImportHead();
    assert "const post_routes = require('./src/post" + "/" + "post" == "const post_routes = require('./src/post/post";
  }

  lemma CallParts(a: string, b: string, c: string, d: string, e: string)
    ensures a + (b + (c + d)) + e == a + b + c + d + e
  {
  }

  lemma UseJson()
    ensures "app." + "use" + "(" + "express.json()" == "app.use(express.json()"
  {
    assert "app." + "use" + "(" == "app.use(";
  }

  lemma JsonLineText()
    ensures JsonLine == "app.use(express.json())"
  {
    CallParts("app.", "use", "(", "express.json()", ")");
    UseJson();
  }

  lemma MountParts(n: string)
    ensures MountLine(n) == "app." + "use" + "('" + "/" + n + "', " + RoutesVar(n) + ")"
  {
  }

  lemma UserMountLine()
    ensures MountLine("user") == "app.use('/user', user_routes)"
  {
    MountParts("user");
    UserNames();
    assert "app." + "use" + "('" + "/" == "app.use('/";
    assert "app.use('/" + "user" + "', " == "app.use('/user', ";
    assert "app.use('/user', " + "user_routes" == "app.use('/user', user_routes";
  }

  lemma PostMountLine()
    ensures MountLine("post") == "app.use('/post', post_routes)"
  {
    MountParts("post");
    PostNames();
    assert "app." + "use" + "('" + "/" == "app.use('/";
    assert "app.use('/" + "post" + "', " == "app.use('/post', ";
    assert "app.use('/post', " + "post_routes" == "app.use('/post', post_routes";
  }

  lemma ListenText()
    ensures ListenLine(3000) == "app.listen(" + "port, () => " + "console.log(`Server running on port " + "3000`))"
  {
    Decimal3000();
    var m1, m2 := "port, () => ", "console.log(`Server running on port ";
    assert "app." + ("listen" + ("(" + (m1 + m2 + "3000" + "`)"))) + ")"
        == "app." + "listen" + "(" + m1 + m2 + ("3000" + "`)" + ")");
    assert "app." + "listen" + "(" == "app.listen(";
    assert "3000" + "`)" + ")" == "3000`))";
  }

  lemma ExampleAppLines()
    ensures AppLines(["user", "post"], 3000, false) == YaasApp
  {
    ExpressRequireText();
    UserImportLine();
    PostImportLine();
    JsonLineText();
    UserMountLine();
    PostMountLine();
    ListenText();
  }
}
