/** Shapes of the Express source lines both scripts write, and readers that
    recover from written lines what an Express application would see: the
    handlers of a controller with their reply statuses, the routes a router
    registers, and the module a `require` names. */
module Express {
  import opened Text
  import opened Seqs

  const TryLine := "    try {"
  const CatchLine := "    } catch (error) {"
  const EndTryLine := "    }"
  const StatusPrefix := "      return res.status("

  /** One handler as a script writes it: its name, the Prisma call in its
      `try`, the status it replies with and what follows that status. */
  datatype HandlerSpec = HandlerSpec(name: string, call: string, status: string, reply: string)

  /** The seven lines both scripts write for one handler: its header, a `try`
      around the Prisma call whose reply carries the status, and a `catch`
      that replies 400 followed by `failReply`. */
  function HandlerLines(h: HandlerSpec, failReply: string): seq<string> {
    [ "  async " + h.name + "(req, res) {",
      TryLine,
      "      " + h.call,
      StatusPrefix + h.status + h.reply,
      CatchLine,
      StatusPrefix + "400" + failReply,
      EndTryLine ]
  }

  /** Members of an object literal: each handler closed by `  },`, the last by `  }`. */
  function MemberLines(hs: seq<HandlerSpec>, failReply: string): seq<string>
    requires hs != []
  {
    if |hs| == 1 then HandlerLines(hs[0], failReply) + ["  }"]
    else HandlerLines(hs[0], failReply) + (["  },"] + MemberLines(hs[1..], failReply))
  }

  /** Handler blocks written one after the other with nothing between them. */
  function RunLines(hs: seq<HandlerSpec>, failReply: string): seq<string> {
    if hs == [] then [] else HandlerLines(hs[0], failReply) + RunLines(hs[1..], failReply)
  }

  // ---------------------------------------------------------------------------
  // Reading a controller

  /** A handler as read from the text: its name, the status it replies with on
      success, the status on failure and what follows the failure status. */
  datatype Handler = Handler(name: string, success: string, failure: string, failReply: string)

  datatype Item = HandlerItem(handler: Handler) | LineItem(line: string)

  predicate HandlerAt(lines: seq<string>) {
    && 7 <= |lines|
    && 20 <= |lines[0]| && StartsWith(lines[0], "  async ") && EndsWith(lines[0], "(req, res) {")
    && lines[1] == TryLine
    && 27 <= |lines[3]| && StartsWith(lines[3], StatusPrefix)
    && lines[4] == CatchLine
    && 27 <= |lines[5]| && StartsWith(lines[5], StatusPrefix)
    && lines[6] == EndTryLine
  }

  function ReadHandler(lines: seq<string>): Handler
    requires HandlerAt(lines)
  {
    Handler(lines[0][8..|lines[0]| - 12], lines[3][24..27], lines[5][24..27], lines[5][27..])
  }

  /** The controller as a reader sees it: each seven-line handler block becomes
      one item, every other line stays a line of its own. */
  function Outline(lines: seq<string>): seq<Item>
    decreases |lines|
  {
    if lines == [] then []
    else if HandlerAt(lines) then [HandlerItem(ReadHandler(lines))] + Outline(lines[7..])
    else [LineItem(lines[0])] + Outline(lines[1..])
  }

  /** What a reader should find for a written handler. */
  function Written(h: HandlerSpec, failReply: string): Handler {
    Handler(h.name, h.status, "400", failReply)
  }

  predicate ThreeDigitStatuses(hs: seq<HandlerSpec>) {
    forall k :: 0 <= k < |hs| ==> |hs[k].status| == 3
  }

  /** A handler block is read back as the handler it was written for. */
  lemma OutlineHandler(h: HandlerSpec, failReply: string, rest: seq<string>)
    requires |h.status| == 3
    ensures Outline(HandlerLines(h, failReply) + rest) == [HandlerItem(Written(h, failReply))] + Outline(rest)
  {
    var lines := HandlerLines(h, failReply) + rest;
    var header := "  async " + h.name + "(req, res) {";
    assert lines[0] == header && lines[1] == TryLine && lines[4] == CatchLine && lines[6] == EndTryLine;
    assert header[..8] == "  async ";
    assert header[|header| - 12..] == "(req, res) {";
    assert header[8..|header| - 12] == h.name;
    var ok := StatusPrefix + h.status + h.reply;
    assert lines[3] == ok;
    assert ok[..24] == StatusPrefix;
    assert ok[24..27] == h.status;
    var fail := StatusPrefix + "400" + failReply;
    assert lines[5] == fail;
    assert fail[..24] == StatusPrefix;
    assert fail[24..27] == "400";
    assert fail[27..] == failReply;
    assert HandlerAt(lines);
    assert lines[7..] == rest;
  }

  /** A handler block starts with its header, never with a `try` line. */
  lemma HandlerStart(h: HandlerSpec, failReply: string, rest: seq<string>)
    ensures (HandlerLines(h, failReply) + rest)[0] != TryLine
  {
    assert |(HandlerLines(h, failReply) + rest)[0]| >= 20;
  }

  /** A single line is read as itself. */
  lemma OutlineOne(line: string)
    ensures Outline([line]) == [LineItem(line)]
  {
    assert [line][1..] == [];
  }

  /** A run of handlers starts with a handler header, never with a `try` line. */
  lemma RunStart(hs: seq<HandlerSpec>, failReply: string, rest: seq<string>)
    requires hs != []
    ensures (RunLines(hs, failReply) + rest)[0] != TryLine
  {
    assert RunLines(hs, failReply)[0] == HandlerLines(hs[0], failReply)[0];
  }

  /** Object members start with a handler header, never with a `try` line. */
  lemma MembersStart(hs: seq<HandlerSpec>, failReply: string, rest: seq<string>)
    requires hs != []
    ensures (MemberLines(hs, failReply) + rest)[0] == "  async " + hs[0].name + "(req, res) {"
    ensures (MemberLines(hs, failReply) + rest)[0] != TryLine
  {
    assert MemberLines(hs, failReply)[0] == HandlerLines(hs[0], failReply)[0];
  }

  function MemberOutline(hs: seq<HandlerSpec>, failReply: string): seq<Item>
    requires hs != []
  {
    if |hs| == 1 then [HandlerItem(Written(hs[0], failReply)), LineItem("  }")]
    else [HandlerItem(Written(hs[0], failReply)), LineItem("  },")] + MemberOutline(hs[1..], failReply)
  }

  /** Object members are read as their handlers, each followed by its closer. */
  lemma {:induction false} OutlineMembers(hs: seq<HandlerSpec>, failReply: string, rest: seq<string>)
    requires hs != [] && ThreeDigitStatuses(hs)
    requires rest == [] || rest[0] != TryLine
    ensures Outline(MemberLines(hs, failReply) + rest) == MemberOutline(hs, failReply) + Outline(rest)
    decreases |hs|
  {
    if |hs| == 1 {
      OutlineLastMember(hs[0], failReply, rest);
      Assoc(HandlerLines(hs[0], failReply), ["  }"], rest);
    } else {
      var pair := [HandlerItem(Written(hs[0], failReply)), LineItem("  },")];
      MembersStart(hs[1..], failReply, rest);
      OutlineMember(hs[0], failReply, MemberLines(hs[1..], failReply) + rest);
      Regroup(HandlerLines(hs[0], failReply), ["  },"], MemberLines(hs[1..], failReply), rest);
      OutlineMembers(hs[1..], failReply, rest);
      Assoc(pair, MemberOutline(hs[1..], failReply), Outline(rest));
    }
  }

  lemma OutlineLastMember(h: HandlerSpec, failReply: string, rest: seq<string>)
    requires |h.status| == 3
    requires rest == [] || rest[0] != TryLine
    ensures Outline(HandlerLines(h, failReply) + (["  }"] + rest))
         == [HandlerItem(Written(h, failReply)), LineItem("  }")] + Outline(rest)
  {
    OutlineHandler(h, failReply, ["  }"] + rest);
    OutlineLine("  }", rest);
    Pair(HandlerItem(Written(h, failReply)), LineItem("  }"), Outline(rest));
  }

  lemma OutlineMember(h: HandlerSpec, failReply: string, more: seq<string>)
    requires |h.status| == 3
    requires more == [] || more[0] != TryLine
    ensures Outline(HandlerLines(h, failReply) + (["  },"] + more))
         == [HandlerItem(Written(h, failReply)), LineItem("  },")] + Outline(more)
  {
    OutlineHandler(h, failReply, ["  },"] + more);
    OutlineLine("  },", more);
    Pair(HandlerItem(Written(h, failReply)), LineItem("  },"), Outline(more));
  }


  function RunOutline(hs: seq<HandlerSpec>, failReply: string): seq<Item> {
    if hs == [] then [] else [HandlerItem(Written(hs[0], failReply))] + RunOutline(hs[1..], failReply)
  }

  /** Consecutive handler blocks are read as consecutive handlers. */
  lemma {:induction false} OutlineRun(hs: seq<HandlerSpec>, failReply: string, rest: seq<string>)
    requires ThreeDigitStatuses(hs)
    ensures Outline(RunLines(hs, failReply) + rest) == RunOutline(hs, failReply) + Outline(rest)
    decreases |hs|
  {
    if hs == [] {
      EmptyLeft(rest);
      EmptyLeft(Outline(rest));
    } else {
      Assoc(HandlerLines(hs[0], failReply), RunLines(hs[1..], failReply), rest);
      OutlineHandler(hs[0], failReply, RunLines(hs[1..], failReply) + rest);
      OutlineRun(hs[1..], failReply, rest);
      Assoc([HandlerItem(Written(hs[0], failReply))], RunOutline(hs[1..], failReply), Outline(rest));
    }
  }

  function WrittenAll(hs: seq<HandlerSpec>, failReply: string): seq<Handler> {
    seq(|hs|, k requires 0 <= k < |hs| => Written(hs[k], failReply))
  }

  lemma {:induction false} HandlersOfMembers(hs: seq<HandlerSpec>, failReply: string)
    requires hs != []
    ensures HandlersOf(MemberOutline(hs, failReply)) == WrittenAll(hs, failReply)
    decreases |hs|
  {
    var h := Written(hs[0], failReply);
    HandlersOfOne(h, "  }");
    HandlersOfOne(h, "  },");
    if |hs| == 1 {
      Pair(HandlerItem(h), LineItem("  }"), []);
      EmptyRight([HandlerItem(h), LineItem("  }")]);
      HandlersOfAppend([HandlerItem(h)], [LineItem("  }")]);
    } else {
      var more := MemberOutline(hs[1..], failReply);
      Pair(HandlerItem(h), LineItem("  },"), more);
      HandlersOfAppend([HandlerItem(h)], [LineItem("  },")] + more);
      HandlersOfAppend([LineItem("  },")], more);
      HandlersOfMembers(hs[1..], failReply);
      EmptyLeft(WrittenAll(hs[1..], failReply));
    }
    WrittenAllCons(hs, failReply);
    EmptyRight([h]);
  }

  lemma HandlersOfOne(h: Handler, line: string)
    ensures HandlersOf([HandlerItem(h)]) == [h]
    ensures HandlersOf([LineItem(line)]) == []
  {
    assert [HandlerItem(h)][1..] == [];
    assert [LineItem(line)][1..] == [];
  }

  lemma WrittenAllCons(hs: seq<HandlerSpec>, failReply: string)
    requires hs != []
    ensures WrittenAll(hs, failReply) == [Written(hs[0], failReply)] + WrittenAll(hs[1..], failReply)
  {
  }

  lemma {:induction false} HandlersOfRun(hs: seq<HandlerSpec>, failReply: string)
    ensures HandlersOf(RunOutline(hs, failReply)) == WrittenAll(hs, failReply)
    decreases |hs|
  {
    if hs != [] {
      HandlersOfAppend([HandlerItem(Written(hs[0], failReply))], RunOutline(hs[1..], failReply));
      HandlersOfRun(hs[1..], failReply);
      WrittenAllCons(hs, failReply);
    }
  }

  /** A line not followed by a `try` line is read as a plain line. */
  lemma OutlineLine(line: string, rest: seq<string>)
    requires rest == [] || rest[0] != TryLine
    ensures Outline([line] + rest) == [LineItem(line)] + Outline(rest)
  {
    ConsTail(line, rest);
  }

  function LineItems(lines: seq<string>): seq<Item> {
    seq(|lines|, k requires 0 <= k < |lines| => LineItem(lines[k]))
  }

  lemma LineItemsAppend(a: seq<string>, b: seq<string>)
    ensures LineItems(a + b) == LineItems(a) + LineItems(b)
  {
  }

  lemma LineItemsOne(line: string)
    ensures LineItems([line]) == [LineItem(line)]
  {
  }

  lemma LineItemsThree(a: string, b: string, c: string)
    ensures LineItems([a, b, c]) == [LineItem(a)] + ([LineItem(b)] + [LineItem(c)])
  {
  }

  /** Lines none of which is followed by a `try` line are read as plain lines. */
  lemma {:induction false} OutlineLines(lines: seq<string>, rest: seq<string>)
    requires forall k :: 0 < k < |lines| ==> lines[k] != TryLine
    requires lines != [] && rest != [] ==> rest[0] != TryLine
    ensures Outline(lines + rest) == LineItems(lines) + Outline(rest)
  {
    if lines != [] {
      var tail := lines[1..] + rest;
      Split(lines);
      Assoc([lines[0]], lines[1..], rest);
      if |lines| > 1 {
        AppendTail(lines[1..], rest);
      } else {
        EmptyLeft(rest);
      }
      OutlineLine(lines[0], tail);
      OutlineLines(lines[1..], rest);
      LineItemsCons(lines);
      Assoc([LineItem(lines[0])], LineItems(lines[1..]), Outline(rest));
    } else {
      EmptyLeft(rest);
      EmptyLeft(Outline(rest));
    }
  }

  lemma LineItemsCons(lines: seq<string>)
    requires lines != []
    ensures LineItems(lines) == [LineItem(lines[0])] + LineItems(lines[1..])
  {
  }

  /** The five CRUD handlers both controllers write, in order, with the status
      each replies with on success; every one replies 400 on failure. */
  function CrudHandlers(failReply: string): seq<Handler> {
    [ Handler("create", "201", "400", failReply),
      Handler("getAll", "200", "400", failReply),
      Handler("getOne", "200", "400", failReply),
      Handler("update", "200", "400", failReply),
      Handler("delete", "204", "400", failReply) ]
  }

  /** The handlers of an outline, in order. */
  function HandlersOf(items: seq<Item>): seq<Handler> {
    if items == [] then []
    else (if items[0].HandlerItem? then [items[0].handler] else []) + HandlersOf(items[1..])
  }

  lemma {:induction false} HandlersOfAppend(a: seq<Item>, b: seq<Item>)
    ensures HandlersOf(a + b) == HandlersOf(a) + HandlersOf(b)
  {
    if a != [] {
      assert (a + b)[0] == a[0];
      assert (a + b)[1..] == a[1..] + b;
      HandlersOfAppend(a[1..], b);
    } else {
      assert a + b == b;
    }
  }

  lemma {:induction false} HandlersOfLineItems(lines: seq<string>)
    ensures HandlersOf(LineItems(lines)) == []
  {
    if lines != [] {
      assert LineItems(lines)[1..] == LineItems(lines[1..]);
      HandlersOfLineItems(lines[1..]);
    }
  }

  // ---------------------------------------------------------------------------
  // Brace nesting of an outline

  /** The line without its leading blanks. */
  function Dedent(line: string): string {
    if line != [] && line[0] == ' ' then Dedent(line[1..]) else line
  }

  predicate Opens(line: string) {
    line != [] && line[|line| - 1] == '{'
  }

  predicate Closes(line: string) {
    var rest := Dedent(line);
    rest != [] && rest[0] == '}'
  }

  /** How an item changes the brace depth: a handler leaves its method body
      open (its `try` and `catch` braces balance inside the block); a line
      opens a brace when it ends with `{` and closes one when its first
      non-blank character is `}`. */
  function Delta(item: Item): int {
    match item
    case HandlerItem(_) => 1
    case LineItem(line) => (if Opens(line) then 1 else 0) - (if Closes(line) then 1 else 0)
  }

  /** The depth after reading `items` from depth `d`. */
  function DepthAfter(items: seq<Item>, d: int): int {
    if items == [] then d else DepthAfter(items[1..], d + Delta(items[0]))
  }

  /** The depth never drops below zero: no brace is closed that was not opened. */
  predicate NeverBelow(items: seq<Item>, d: int) {
    items == [] || (d + Delta(items[0]) >= 0 && NeverBelow(items[1..], d + Delta(items[0])))
  }

  /** The depth at which each handler starts, in order: 1 for a member of a
      top-level object, 0 for a function written at top level. */
  function HandlerDepths(items: seq<Item>, d: int): seq<int> {
    if items == [] then []
    else (if items[0].HandlerItem? then [d] else []) + HandlerDepths(items[1..], d + Delta(items[0]))
  }

  lemma {:induction false} DepthAppend(a: seq<Item>, b: seq<Item>, d: int)
    ensures DepthAfter(a + b, d) == DepthAfter(b, DepthAfter(a, d))
  {
    if a == [] {
      assert a + b == b;
    } else {
      assert (a + b)[1..] == a[1..] + b;
      DepthAppend(a[1..], b, d + Delta(a[0]));
    }
  }

  lemma {:induction false} HandlerDepthsAppend(a: seq<Item>, b: seq<Item>, d: int)
    ensures HandlerDepths(a + b, d) == HandlerDepths(a, d) + HandlerDepths(b, DepthAfter(a, d))
  {
    if a == [] {
      assert a + b == b;
    } else {
      assert (a + b)[1..] == a[1..] + b;
      HandlerDepthsAppend(a[1..], b, d + Delta(a[0]));
    }
  }

  lemma {:induction false} NeverBelowAppend(a: seq<Item>, b: seq<Item>, d: int)
    ensures NeverBelow(a + b, d) <==> NeverBelow(a, d) && NeverBelow(b, DepthAfter(a, d))
  {
    if a == [] {
      assert a + b == b;
    } else {
      assert (a + b)[1..] == a[1..] + b;
      NeverBelowAppend(a[1..], b, d + Delta(a[0]));
    }
  }

  lemma NestingAppend(a: seq<Item>, b: seq<Item>, d: int)
    ensures DepthAfter(a + b, d) == DepthAfter(b, DepthAfter(a, d))
    ensures HandlerDepths(a + b, d) == HandlerDepths(a, d) + HandlerDepths(b, DepthAfter(a, d))
    ensures NeverBelow(a + b, d) <==> NeverBelow(a, d) && NeverBelow(b, DepthAfter(a, d))
  {
    DepthAppend(a, b, d);
    HandlerDepthsAppend(a, b, d);
    NeverBelowAppend(a, b, d);
  }

  /** Nesting facts about two parts give the nesting facts about their concatenation. */
  lemma NestingCompose(a: seq<Item>, b: seq<Item>, d: int, mid: int, end: int, ha: seq<int>, hb: seq<int>, na: bool, nb: bool)
    requires DepthAfter(a, d) == mid && HandlerDepths(a, d) == ha && (NeverBelow(a, d) <==> na)
    requires DepthAfter(b, mid) == end && HandlerDepths(b, mid) == hb && (NeverBelow(b, mid) <==> nb)
    ensures DepthAfter(a + b, d) == end && HandlerDepths(a + b, d) == ha + hb && (NeverBelow(a + b, d) <==> na && nb)
  {
    NestingAppend(a, b, d);
  }

  /** Lines that neither open nor close a brace leave the depth as it is. */
  predicate Flat(lines: seq<string>) {
    forall k :: 0 <= k < |lines| ==> !Opens(lines[k]) && !Closes(lines[k])
  }

  lemma FlatLine(line: string)
    requires line == [] || (line[0] != ' ' && line[0] != '}' && line[|line| - 1] != '{')
    ensures !Opens(line) && !Closes(line)
  {
  }

  lemma {:induction false} NestingFlat(lines: seq<string>, d: int)
    requires Flat(lines) && d >= 0
    ensures DepthAfter(LineItems(lines), d) == d
    ensures HandlerDepths(LineItems(lines), d) == []
    ensures NeverBelow(LineItems(lines), d)
  {
    if lines != [] {
      var items := LineItems(lines);
      assert items[0] == LineItem(lines[0]);
      assert Delta(items[0]) == 0 by {
        assert !Opens(lines[0]) && !Closes(lines[0]);
      }
      assert items[1..] == LineItems(lines[1..]);
      NestingFlat(lines[1..], d);
    }
  }

  lemma NestingLine(line: string, d: int)
    ensures DepthAfter([LineItem(line)], d) == d + Delta(LineItem(line))
    ensures HandlerDepths([LineItem(line)], d) == []
    ensures NeverBelow([LineItem(line)], d) <==> d + Delta(LineItem(line)) >= 0
  {
    assert [LineItem(line)][1..] == [];
  }

  lemma MemberCloses()
    ensures Delta(LineItem("  },")) == -1 && Delta(LineItem("  }")) == -1 && Delta(LineItem("};")) == -1
    ensures Delta(LineItem("}")) == -1 && Delta(LineItem("")) == 0
  {
    assert Dedent("  },") == "},";
    assert Dedent("  }") == "}";
  }

  /** `n` depths starting at `d`, each `step` deeper than the one before. */
  function Range(n: nat, d: int, step: int): seq<int> {
    seq(n, k => d + step * k)
  }

  lemma RangeCons(n: nat, d: int, step: int)
    requires n > 0
    ensures Range(n, d, step) == [d] + Range(n - 1, d + step, step)
  {
    assert forall k :: 0 <= k < n - 1 ==> d + step * (k + 1) == d + step + step * k;
  }

  /** Object members start at the depth they are read from and leave it unchanged. */
  lemma {:induction false} NestingMembers(hs: seq<HandlerSpec>, failReply: string, d: int)
    requires hs != [] && d >= 0
    ensures DepthAfter(MemberOutline(hs, failReply), d) == d
    ensures HandlerDepths(MemberOutline(hs, failReply), d) == Range(|hs|, d, 0)
    ensures NeverBelow(MemberOutline(hs, failReply), d)
    decreases |hs|
  {
    MemberCloses();
    var h := Written(hs[0], failReply);
    if |hs| == 1 {
      NestingMember(h, "  }", d);
    } else {
      var pair := [HandlerItem(h), LineItem("  },")];
      NestingMember(h, "  },", d);
      NestingAppend(pair, MemberOutline(hs[1..], failReply), d);
      NestingMembers(hs[1..], failReply, d);
      RangeCons(|hs|, d, 0);
    }
  }

  /** A handler followed by its closer. */
  lemma NestingMember(h: Handler, closer: string, d: int)
    requires Delta(LineItem(closer)) == -1 && d >= 0
    ensures DepthAfter([HandlerItem(h), LineItem(closer)], d) == d
    ensures HandlerDepths([HandlerItem(h), LineItem(closer)], d) == [d]
    ensures NeverBelow([HandlerItem(h), LineItem(closer)], d)
  {
    var items := [HandlerItem(h), LineItem(closer)];
    var last := [LineItem(closer)];
    assert items[1..] == last && last[1..] == [];
    assert DepthAfter(last, d + 1) == d;
    assert HandlerDepths(last, d + 1) == [];
  }

  /** Flat lines, an opening line, object members and a closing line: every
      handler sits at depth 1 and the braces balance. */
  lemma NestingObject(imports: seq<string>, open: string, hs: seq<HandlerSpec>, failReply: string, close: string)
    requires Flat(imports) && Delta(LineItem(open)) == 1 && Delta(LineItem(close)) == -1 && hs != []
    ensures var items := LineItems(imports) + [LineItem(open)] + (MemberOutline(hs, failReply) + [LineItem(close)]);
      && HandlerDepths(items, 0) == Range(|hs|, 1, 0)
      && NeverBelow(items, 0)
      && DepthAfter(items, 0) == 0
  {
    var members := MemberOutline(hs, failReply);
    var body := members + [LineItem(close)];
    NestingFlat(imports, 0);
    NestingLine(open, 0);
    NestingAppend(LineItems(imports), [LineItem(open)], 0);
    NestingMembers(hs, failReply, 1);
    NestingLine(close, 1);
    NestingAppend(members, [LineItem(close)], 1);
    NestingAppend(LineItems(imports) + [LineItem(open)], body, 0);
  }

  /** Consecutive handlers each leave one more brace open. */
  lemma {:induction false} NestingRun(hs: seq<HandlerSpec>, failReply: string, d: int)
    ensures DepthAfter(RunOutline(hs, failReply), d) == d + |hs|
    ensures HandlerDepths(RunOutline(hs, failReply), d) == Range(|hs|, d, 1)
    ensures NeverBelow(RunOutline(hs, failReply), d) <==> d + 1 >= 0 || hs == []
    decreases |hs|
  {
    if hs != [] {
      var h := [HandlerItem(Written(hs[0], failReply))];
      assert h[1..] == [];
      NestingAppend(h, RunOutline(hs[1..], failReply), d);
      NestingRun(hs[1..], failReply, d + 1);
      RangeCons(|hs|, d, 1);
    }
  }

  // ---------------------------------------------------------------------------
  // Reading a router

  /** The line registering `target` for `verb` on `path`; `close` is `);` or `)`. */
  function RouteLine(verb: string, path: string, target: string, close: string): string {
    "router." + RouteCall(verb, path, target) + close
  }

  /** What follows `router.` on a registration line, up to its closer. */
  function RouteCall(verb: string, path: string, target: string): string {
    verb + "('" + path + "', " + target
  }

  /** `router.<verb>('<path>', <target>)`: one route registration. */
  datatype Registration = Registration(verb: string, path: string, target: string)

  function ReadVerbPath(body: string): seq<Registration> {
    var i := IndexOf(body, '(');
    if i + 2 <= |body| && body[i + 1] == '\'' then ReadPath(body[..i], body[i + 2..]) else []
  }

  function ReadPath(verb: string, after: string): seq<Registration> {
    var j := IndexOf(after, '\'');
    if j + 3 <= |after| && after[j + 1] == ',' && after[j + 2] == ' ' then [Registration(verb, after[..j], after[j + 3..])]
    else []
  }

  /** The registration a line makes, if any; `close` is how the line ends. */
  function RegistrationOf(line: string, close: string): seq<Registration> {
    if StartsWith(line, "router.") && EndsWith(line, close) && 7 + |close| <= |line| then
      ReadVerbPath(line[7..|line| - |close|])
    else []
  }

  function Registrations(lines: seq<string>, close: string): seq<Registration> {
    Collect(lines, RouteReader(close))
  }

  function RouteReader(close: string): string -> seq<Registration> {
    line => RegistrationOf(line, close)
  }

  /** The five CRUD routes both routers register, in the order they write them;
      `c` is the controller variable and `close` ends each line. */
  function CrudRoutes(c: string, close: string): seq<string> {
    [ RouteLine("post", "/", c + ".create", close),
      RouteLine("get", "/", c + ".getAll", close),
      RouteLine("get", "/:id", c + ".getOne", close),
      RouteLine("put", "/:id", c + ".update", close),
      RouteLine("delete", "/:id", c + ".delete", close) ]
  }

  function CrudTable(c: string): seq<Registration> {
    [ Registration("post", "/", c + ".create"),
      Registration("get", "/", c + ".getAll"),
      Registration("get", "/:id", c + ".getOne"),
      Registration("put", "/:id", c + ".update"),
      Registration("delete", "/:id", c + ".delete") ]
  }

  /** The CRUD route lines register exactly the CRUD table. */
  lemma CrudRegistrations(c: string, close: string)
    ensures Registrations(CrudRoutes(c, close), close) == CrudTable(c)
  {
    var r := CrudRoutes(c, close);
    var t := CrudTable(c);
    forall k | 0 <= k < 5
      ensures RegistrationOf(r[k], close) == [t[k]]
    {
      RouteRead(t[k].verb, t[k].path, t[k].target, close);
    }
    CollectOneEach(r, t, RouteReader(close));
  }

  lemma RouteRead(verb: string, path: string, target: string, close: string)
    requires verb in ["post", "get", "put", "delete"] && path in ["/", "/:id"]
    ensures RegistrationOf(RouteLine(verb, path, target, close), close) == [Registration(verb, path, target)]
  {
    RegistrationOfLine(verb, path, target, close);
  }

  /** Route lines bind no module. */
  lemma CrudRoutesBindNothing(c: string, close: string)
    ensures Bindings(CrudRoutes(c, close)) == []
  {
    var r := CrudRoutes(c, close);
    forall k | 0 <= k < 5
      ensures |r[k]| == 0 || r[k][0] != 'c'
    {
      assert r[k][0] == 'r';
    }
    NoBindings(r);
  }

  /** A router file: its requires, its setup lines, the five CRUD routes
      against the controller variable `c`, and its closing lines. */
  function RouterLines(reqs: seq<string>, setup: seq<string>, c: string, close: string, foot: seq<string>): seq<string> {
    reqs + setup + CrudRoutes(c, close) + foot
  }

  /** A router whose other lines do not start with `r` registers exactly the CRUD table. */
  lemma RouterTable(reqs: seq<string>, setup: seq<string>, c: string, close: string, foot: seq<string>)
    requires forall k :: 0 <= k < |reqs| ==> |reqs[k]| == 0 || reqs[k][0] != 'r'
    requires forall k :: 0 <= k < |setup| ==> |setup[k]| == 0 || setup[k][0] != 'r'
    requires forall k :: 0 <= k < |foot| ==> |foot[k]| == 0 || foot[k][0] != 'r'
    ensures Registrations(RouterLines(reqs, setup, c, close, foot), close) == CrudTable(c)
  {
    var routes := CrudRoutes(c, close);
    NonRoutes(reqs, close);
    NonRoutes(setup, close);
    NonRoutes(foot, close);
    CrudRegistrations(c, close);
    CollectAppend(reqs + setup + routes, foot, RouteReader(close));
    CollectAppend(reqs + setup, routes, RouteReader(close));
    CollectAppend(reqs, setup, RouteReader(close));
    EmptyLeft(CrudTable(c));
    EmptyRight(CrudTable(c));
  }

  /** A router whose setup and closing lines bind nothing binds what its requires bind. */
  lemma RouterBindings(reqs: seq<string>, setup: seq<string>, c: string, close: string, foot: seq<string>)
    requires Bindings(setup) == [] && Bindings(foot) == []
    ensures Bindings(RouterLines(reqs, setup, c, close, foot)) == Bindings(reqs)
  {
    var routes := CrudRoutes(c, close);
    CrudRoutesBindNothing(c, close);
    CollectAppend(reqs + setup + routes, foot, BindingOf);
    CollectAppend(reqs + setup, routes, BindingOf);
    CollectAppend(reqs, setup, BindingOf);
    EmptyRight(Bindings(reqs));
  }

  /** A router's two requires bind `express` and the controller variable. */
  lemma RouterRequires(v: string, m: string, close: string)
    requires ' ' !in v && (close == "" || close == ";")
    ensures Bindings([RequireLine("express", "express", close), RequireLine(v, m, close)])
         == [Binding("express", "express"), Binding(v, m)]
  {
    BindingOfRequire("express", "express", close);
    BindingOfRequire(v, m, close);
    CollectOneEach([RequireLine("express", "express", close), RequireLine(v, m, close)],
      [Binding("express", "express"), Binding(v, m)], BindingOf);
  }

  /** The router file both scripts write for the controller variable `c`
      bound to module `m`: `express` and the controller required, the router
      created, the five CRUD routes and the router exported, every statement
      ended by `end` (`;` in one script, nothing in the other). */
  function ScriptRouter(c: string, m: string, end: string): seq<string> {
    RouterLines([RequireLine("express", "express", end), RequireLine(c, m, end)],
                ["const router = express.Router()" + end, ""],
                c, ")" + end,
                ["", "module.exports = router" + end])
  }

  /** The script router registers exactly the five CRUD routes, in order,
      each against the controller variable. */
  lemma ScriptRouterTable(c: string, m: string, end: string)
    ensures Registrations(ScriptRouter(c, m, end), ")" + end) == CrudTable(c)
  {
    var reqs := [RequireLine("express", "express", end), RequireLine(c, m, end)];
    var setup := ["const router = express.Router()" + end, ""];
    var foot := ["", "module.exports = router" + end];
    assert reqs[0][0] == 'c' && reqs[1][0] == 'c';
    assert setup[0][0] == 'c' && foot[1][0] == 'm';
    RouterTable(reqs, setup, c, ")" + end, foot);
  }

  /** The script router binds `express`, and the controller variable to `m`,
      and nothing else. */
  lemma ScriptRouterBindings(c: string, m: string, end: string)
    requires ' ' !in c && (end == "" || end == ";")
    ensures Bindings(ScriptRouter(c, m, end)) == [Binding("express", "express"), Binding(c, m)]
  {
    var setup := ["const router = express.Router()" + end, ""];
    var foot := ["", "module.exports = router" + end];
    var line := setup[0];
    BindingOfPlain(line, |line| - 1 - |end|);
    BindingOfOther("");
    CollectNone(setup, BindingOf);
    assert foot[1][0] == 'm';
    NoBindings(foot);
    RouterRequires(c, m, end);
    RouterBindings([RequireLine("express", "express", end), RequireLine(c, m, end)], setup, c, ")" + end, foot);
  }

  /** The CRUD table routes to the CRUD handlers and to nothing else. */
  lemma CrudTableHandlers(c: string, failReply: string)
    ensures forall r :: r in CrudTable(c) ==>
      exists h :: h in CrudHandlers(failReply) && r.target == c + "." + h.name
  {
    var t := CrudTable(c);
    var hs := CrudHandlers(failReply);
    forall r | r in t
      ensures exists h :: h in hs && r.target == c + "." + h.name
    {
      var k :| 0 <= k < 5 && t[k] == r;
      assert r.target == c + "." + hs[k].name;
      assert hs[k] in hs;
    }
  }

  /** A line that does not start with `router.` registers nothing. */
  lemma RegistrationOfOther(line: string, close: string)
    requires !StartsWith(line, "router.")
    ensures RegistrationOf(line, close) == []
  {
  }

  lemma ReadVerbPathOf(verb: string, path: string, target: string)
    requires '(' !in verb && '\'' !in path
    ensures ReadVerbPath(RouteCall(verb, path, target)) == [Registration(verb, path, target)]
  {
    RightAssoc5(verb, "('", path, "', ", target);
    ReadVerbOf(verb, path + ("', " + target));
    ReadPathOf(verb, path, target);
  }

  lemma ReadVerbOf(verb: string, after: string)
    requires '(' !in verb
    ensures ReadVerbPath(verb + ("('" + after)) == ReadPath(verb, after)
  {
    var open := "('" + after;
    var body := verb + open;
    Cut(verb, open);
    IndexOfFirst(body, '(', |verb|);
    DropConcat(verb, open, 2);
    Cut("('", after);
  }

  lemma ReadPathOf(verb: string, path: string, target: string)
    requires '\'' !in path
    ensures ReadPath(verb, path + ("', " + target)) == [Registration(verb, path, target)]
  {
    var tail := "', " + target;
    var after := path + tail;
    Cut(path, tail);
    IndexOfFirst(after, '\'', |path|);
    DropConcat(path, tail, 3);
    Cut("', ", target);
  }

  /** A registration line is read back as the verb, path and handler it names. */
  lemma RegistrationOfLine(verb: string, path: string, target: string, close: string)
    requires '(' !in verb && '\'' !in path
    ensures RegistrationOf(RouteLine(verb, path, target, close), close) == [Registration(verb, path, target)]
  {
    var body := RouteCall(verb, path, target);
    Middle("router.", body, close);
    ReadVerbPathOf(verb, path, target);
  }

  /** Lines none of which starts with `router.` register nothing. */
  lemma NonRoutes(lines: seq<string>, close: string)
    requires forall k :: 0 <= k < |lines| ==> |lines[k]| == 0 || lines[k][0] != 'r'
    ensures Registrations(lines, close) == []
  {
    forall k | 0 <= k < |lines|
      ensures RouteReader(close)(lines[k]) == []
    {
      if |lines[k]| > 0 {
        NotPrefixAt(lines[k], "router.", 0);
      }
      RegistrationOfOther(lines[k], close);
    }
    CollectNone(lines, RouteReader(close));
  }

  // ---------------------------------------------------------------------------
  // Reading a require

  const RequireOpen := " = require('"

  /** `const <v> = require('<m>')` followed by `close` (`;` or nothing). */
  function RequireLine(v: string, m: string, close: string): string {
    "const " + v + RequireOpen + m + "')" + close
  }

  /** `const <variable> = require('<source>')`: a module bound to a variable. */
  datatype Binding = Binding(variable: string, source: string)

  /** The binding a line makes, if any: a trailing `;` is allowed; the
      variable runs to the first blank. */
  function BindingOf(line: string): seq<Binding> {
    var body := if EndsWith(line, ";") then line[..|line| - 1] else line;
    if StartsWith(body, "const ") && EndsWith(body, "')") && 8 <= |body| then ReadBinding(body[6..|body| - 2])
    else []
  }

  function ReadBinding(body: string): seq<Binding> {
    var k := IndexOf(body, ' ');
    if StartsWith(body[k..], RequireOpen) then [Binding(body[..k], body[k + |RequireOpen|..])] else []
  }

  function Bindings(lines: seq<string>): seq<Binding> {
    Collect(lines, BindingOf)
  }

  lemma ReadBindingOf(v: string, m: string)
    requires ' ' !in v
    ensures ReadBinding(v + (RequireOpen + m)) == [Binding(v, m)]
  {
    var body := v + (RequireOpen + m);
    Cut(v, RequireOpen + m);
    IndexOfFirst(body, ' ', |v|);
    Cut(RequireOpen, m);
    DropConcat(v, RequireOpen + m, |RequireOpen|);
  }

  /** A require line is read back as the variable and the module it binds. */
  lemma BindingOfRequire(v: string, m: string, close: string)
    requires ' ' !in v && (close == "" || close == ";")
    ensures BindingOf(RequireLine(v, m, close)) == [Binding(v, m)]
  {
    var b := v + (RequireOpen + m);
    var x := "const " + v + RequireOpen + m + "')";
    Regroup5("const ", v, RequireOpen, m, "')");
    Middle("const ", b, "')");
    assert StartsWith(x, "const ") && EndsWith(x, "')") && 8 <= |x|;
    assert x[6..|x| - 2] == b;
    if close == ";" {
      Cut(x, ";");
      assert EndsWith(x + close, ";");
    } else {
      EmptyRight(x);
      assert x[|x| - 1] == ')';
    }
    ReadBindingOf(v, m);
  }

  /** A line that does not start with `const ` binds nothing. */
  lemma BindingOfOther(line: string)
    requires |line| == 0 || line[0] != 'c'
    ensures BindingOf(line) == []
  {
    var body := if EndsWith(line, ";") then line[..|line| - 1] else line;
    if |body| > 0 {
      NotPrefixAt(body, "const ", 0);
    }
  }

  /** Lines none of which starts with `const ` bind nothing. */
  lemma NoBindings(lines: seq<string>)
    requires forall k :: 0 <= k < |lines| ==> |lines[k]| == 0 || lines[k][0] != 'c'
    ensures Bindings(lines) == []
  {
    forall k | 0 <= k < |lines|
      ensures BindingOf(lines[k]) == []
    {
      BindingOfOther(lines[k]);
    }
    CollectNone(lines, BindingOf);
  }

  /** A `const` line that does not end with `')` (before an optional `;`) binds nothing. */
  lemma BindingOfPlain(line: string, k: nat)
    requires 2 <= k < |line| && line[k] == ')' && line[k - 1] != '\''
    requires k == |line| - 1 || (k == |line| - 2 && line[k + 1] == ';')
    ensures BindingOf(line) == []
  {
    var body := if EndsWith(line, ";") then line[..|line| - 1] else line;
    assert |body| == k + 1 && body[k - 1] == line[k - 1];
  }
}
