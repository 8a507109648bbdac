/** The Prisma schema emission shared verbatim by hammer_out_from_yaml.py and
    generate_project.py (lines 62-72 of each): a leading blank line, then one
    `model` block per model; only fields named exactly `id` get the primary-key
    annotation. A reader of the emitted lines recovers every model. */
module Schema {
  import opened Text
  import opened Seqs

  datatype Field = Field(name: string, typ: string)
  datatype Model = Model(name: string, fields: seq<Field>)

  const IdAnnotation := " @id @default(autoincrement())"

  function FieldLine(f: Field): string {
    if f.name == "id" then "  " + f.name + " " + f.typ + IdAnnotation
    else "  " + f.name + " " + f.typ
  }

  function FieldLines(fields: seq<Field>): seq<string> {
    seq(|fields|, j requires 0 <= j < |fields| => FieldLine(fields[j]))
  }

  function BlockLines(m: Model): seq<string> {
    ["model " + m.name + " {"] + FieldLines(m.fields) + ["}", ""]
  }

  function Blocks(models: seq<Model>): seq<string> {
    if models == [] then []
    else Blocks(models[..|models| - 1]) + BlockLines(models[|models| - 1])
  }

  /** Everything one run appends to schema.prisma, one line per element. */
  function SchemaLines(models: seq<Model>): seq<string> {
    [""] + Blocks(models)
  }

  /** The schema loop: writes the blank line, then each model's header, its
      field lines in order and the closing lines. */
  method EmitSchema(models: seq<Model>) returns (lines: seq<string>)
    ensures lines == SchemaLines(models)
  {
    lines := [""];
    for i := 0 to |models|
      invariant lines == [""] + Blocks(models[..i])
    {
      var model := models[i];
      ghost var before := lines;
      lines := lines + ["model " + model.name + " {"];
      for j := 0 to |model.fields|
        invariant lines == before + ["model " + model.name + " {"] + FieldLines(model.fields[..j])
      {
        var field := model.fields[j];
        if field.name == "id" {
          lines := lines + ["  " + field.name + " " + field.typ + IdAnnotation];
        } else {
          lines := lines + ["  " + field.name + " " + field.typ];
        }
        FieldLinesSnoc(model.fields, j);
        Assoc(before + ["model " + model.name + " {"], FieldLines(model.fields[..j]), [FieldLine(field)]);
      }
      AllOf(model.fields);
      ghost var body := lines;
      lines := lines + ["}"];
      lines := lines + [""];
      Assoc(body, ["}"], [""]);
      assert ["}"] + [""] == ["}", ""];
      BlocksSnoc(models, i);
      Assoc([""], Blocks(models[..i]), BlockLines(model));
      BlockShape(before, "model " + model.name + " {", FieldLines(model.fields), ["}", ""]);
    }
    AllOf(models);
  }

  lemma FieldLinesSnoc(fields: seq<Field>, j: nat)
    requires j < |fields|
    ensures FieldLines(fields[..j + 1]) == FieldLines(fields[..j]) + [FieldLine(fields[j])]
  {
  }

  lemma BlocksSnoc(models: seq<Model>, i: nat)
    requires i < |models|
    ensures Blocks(models[..i + 1]) == Blocks(models[..i]) + BlockLines(models[i])
  {
    assert models[..i + 1][..i] == models[..i];
  }

  lemma AllOf<T>(s: seq<T>)
    ensures s[..|s|] == s
  {
  }

  lemma BlockShape(before: seq<string>, header: string, fields: seq<string>, closing: seq<string>)
    ensures before + [header] + fields + closing == before + ([header] + fields + closing)
  {
  }

  // ---------------------------------------------------------------------------
  // Reading the emitted lines back

  datatype ParsedField = ParsedField(name: string, typ: string, primaryKey: bool)
  datatype ParsedModel = ParsedModel(name: string, fields: seq<ParsedField>)

  /** `  <name> <rest>`: the name runs to the first space; the annotation, when
      the rest ends with it, marks a primary key. */
  function ParseFieldLine(line: string): ParsedField
    requires StartsWith(line, "  ")
  {
    ParseFieldBody(line[2..])
  }

  function ParseFieldBody(body: string): ParsedField {
    var k := IndexOf(body, ' ');
    ParseType(body[..k], if k < |body| then body[k + 1..] else "")
  }

  function ParseType(name: string, rest: string): ParsedField {
    if EndsWith(rest, IdAnnotation) then ParsedField(name, rest[..|rest| - |IdAnnotation|], true)
    else ParsedField(name, rest, false)
  }

  /** Reads the indented field lines at the head of `lines`; `n` is how many. */
  function ParseFields(lines: seq<string>): (r: (seq<ParsedField>, nat))
    ensures r.1 <= |lines|
  {
    if lines != [] && StartsWith(lines[0], "  ") then
      var rest := ParseFields(lines[1..]);
      ([ParseFieldLine(lines[0])] + rest.0, rest.1 + 1)
    else ([], 0)
  }

  function ParseBlocks(lines: seq<string>): Option<seq<ParsedModel>>
    decreases |lines|
  {
    if lines == [] then Some([])
    else if IsHeader(lines[0]) then
      var name := HeaderName(lines[0]);
      var fields := ParseFields(lines[1..]);
      var n := fields.1;
      if 3 + n <= |lines| && lines[1 + n] == "}" && lines[2 + n] == "" then
        match ParseBlocks(lines[3 + n..])
        case None => None
        case Some(rest) => Some([ParsedModel(name, fields.0)] + rest)
      else None
    else None
  }

  /** `model <name> {` */
  predicate IsHeader(line: string) {
    StartsWith(line, "model ") && EndsWith(line, " {") && 8 <= |line|
  }

  function HeaderName(line: string): string
    requires IsHeader(line)
  {
    line[6..|line| - 2]
  }

  lemma HeaderOf(name: string)
    ensures IsHeader("model " + name + " {")
    ensures HeaderName("model " + name + " {") == name
  {
    Middle("model ", name, " {");
  }

  /** A header, field lines read as `fields`, the two closing lines and more
      blocks: the block is read, then the rest. */
  lemma ParseBlockStep(header: string, lines: seq<string>, fields: seq<ParsedField>, rest: seq<string>)
    requires IsHeader(header)
    requires ParseFields(lines + (["}", ""] + rest)) == (fields, |lines|)
    ensures ParseBlocks([header] + lines + ["}", ""] + rest)
         == if ParseBlocks(rest).Some? then Some([ParsedModel(HeaderName(header), fields)] + ParseBlocks(rest).value) else None
  {
    Block(header, lines, ["}", ""], rest);
  }

  function ParseSchema(lines: seq<string>): Option<seq<ParsedModel>> {
    if lines != [] && lines[0] == "" then ParseBlocks(lines[1..]) else None
  }

  /** What a reader should find for a field: its name and type as given, and a
      primary key exactly when the name is `id`. */
  function Expected(f: Field): ParsedField {
    ParsedField(f.name, f.typ, f.name == "id")
  }

  function ExpectedFields(fields: seq<Field>): seq<ParsedField> {
    if fields == [] then [] else [Expected(fields[0])] + ExpectedFields(fields[1..])
  }

  function ExpectedModel(m: Model): ParsedModel {
    ParsedModel(m.name, ExpectedFields(m.fields))
  }

  function ExpectedModels(models: seq<Model>): seq<ParsedModel> {
    if models == [] then [] else [ExpectedModel(models[0])] + ExpectedModels(models[1..])
  }

  /** Field names without spaces, and types that do not already end with the
      annotation text: the condition under which the lines can be read back. */
  predicate Readable(f: Field) {
    ' ' !in f.name && !EndsWith(f.typ, IdAnnotation)
  }

  predicate ModelsReadable(models: seq<Model>) {
    forall i, j :: 0 <= i < |models| && 0 <= j < |models[i].fields| ==> Readable(models[i].fields[j])
  }

  lemma ParseFieldLineOf(f: Field)
    requires Readable(f)
    ensures StartsWith(FieldLine(f), "  ")
    ensures ParseFieldLine(FieldLine(f)) == Expected(f)
  {
    var tail := if f.name == "id" then f.typ + IdAnnotation else f.typ;
    if f.name == "id" {
      RightAssoc5("  ", f.name, " ", f.typ, IdAnnotation);
    } else {
      RightAssoc4("  ", f.name, " ", f.typ);
    }
    Cut("  ", f.name + (" " + tail));
    ParseFieldBodyOf(f.name, tail);
    ParseTypeOf(f);
  }

  lemma ParseFieldBodyOf(name: string, tail: string)
    requires ' ' !in name
    ensures ParseFieldBody(name + (" " + tail)) == ParseType(name, tail)
  {
    var body := name + (" " + tail);
    Cut(name, " " + tail);
    IndexOfFirst(body, ' ', |name|);
    DropConcat(name, " " + tail, 1);
    Cut(" ", tail);
  }

  lemma ParseTypeOf(f: Field)
    requires Readable(f)
    ensures ParseType(f.name, if f.name == "id" then f.typ + IdAnnotation else f.typ) == Expected(f)
  {
    if f.name == "id" {
      Cut(f.typ, IdAnnotation);
    }
  }

  lemma FieldLinesCons(fields: seq<Field>, tail: seq<string>)
    requires fields != []
    ensures (FieldLines(fields) + tail)[0] == FieldLine(fields[0])
    ensures (FieldLines(fields) + tail)[1..] == FieldLines(fields[1..]) + tail
  {
  }

  lemma {:induction false} ParseFieldsOf(fields: seq<Field>, tail: seq<string>)
    requires forall j :: 0 <= j < |fields| ==> Readable(fields[j])
    requires tail == [] || !StartsWith(tail[0], "  ")
    ensures ParseFields(FieldLines(fields) + tail) == (ExpectedFields(fields), |fields|)
  {
    var lines := FieldLines(fields) + tail;
    if fields == [] {
      assert lines == tail;
    } else {
      ParseFieldLineOf(fields[0]);
      FieldLinesCons(fields, tail);
      ParseFieldsOf(fields[1..], tail);
    }
  }

  lemma {:induction false} BlocksCons(m: Model, rest: seq<Model>)
    ensures Blocks([m] + rest) == BlockLines(m) + Blocks(rest)
    decreases |rest|
  {
    var ms := [m] + rest;
    if rest == [] {
      assert ms[..|ms| - 1] == [];
      EmptyLeft(BlockLines(m));
      EmptyRight(BlockLines(m));
    } else {
      var init := rest[..|rest| - 1];
      var last := rest[|rest| - 1];
      InitLast(m, rest);
      BlocksCons(m, init);
      Assoc(BlockLines(m), Blocks(init), BlockLines(last));
    }
  }

  lemma {:induction false} ParseBlocksOf(models: seq<Model>)
    requires ModelsReadable(models)
    ensures ParseBlocks(Blocks(models)) == Some(ExpectedModels(models))
    decreases |models|
  {
    if models != [] {
      var m := models[0];
      var rest := models[1..];
      Split(models);
      BlocksCons(m, rest);
      HeaderOf(m.name);
      assert forall j :: 0 <= j < |m.fields| ==> Readable(m.fields[j]) by {
        forall j | 0 <= j < |m.fields| ensures Readable(m.fields[j]) {
          assert models[0] == m;
        }
      }
      ParseFieldsOf(m.fields, ["}", ""] + Blocks(rest));
      assert ModelsReadable(rest) by {
        forall i, j | 0 <= i < |rest| && 0 <= j < |rest[i].fields|
          ensures Readable(rest[i].fields[j])
        {
          assert rest[i] == models[i + 1];
        }
      }
      ParseBlocksOf(rest);
      ParseBlockStep("model " + m.name + " {", FieldLines(m.fields), ExpectedFields(m.fields), Blocks(rest));
    }
  }

  /** Round trip: the appended schema lines name every model verbatim, in input
      order, with its fields in order, and mark as primary key exactly the
      fields named `id` — none, one or several. */
  lemma SchemaRoundTrip(models: seq<Model>)
    requires ModelsReadable(models)
    ensures ParseSchema(SchemaLines(models)) == Some(ExpectedModels(models))
  {
    assert SchemaLines(models)[1..] == Blocks(models);
    ParseBlocksOf(models);
  }

  /** The emitted field line carries the annotation exactly when the field is
      named `id`. */
  lemma AnnotatedExactlyId(f: Field)
    requires Readable(f)
    ensures ParseFieldLine(FieldLine(f)).primaryKey <==> f.name == "id"
  {
    ParseFieldLineOf(f);
  }
}
