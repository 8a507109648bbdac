/** The two template files both scripts rewrite after copying the template
    project: `package.json` gets the placeholder replaced by the project name,
    and `.env` gets the same replacement followed by a second pass that
    replaces every `3000` by the configured port. */
module Template {
  import opened Text

  /** The port written into the template's `.env`. */
  const DefaultPort := "3000"

  /** The rewritten `package.json`. */
  function PackageText(text: string, placeholder: string, name: string): string
    requires placeholder != []
  {
    ReplaceAll(text, placeholder, name)
  }

  /** The rewritten `.env`: the name pass first, then the port pass over its result. */
  function EnvText(text: string, placeholder: string, name: string, port: int): string
    requires placeholder != []
  {
    ReplaceAll(ReplaceAll(text, placeholder, name), DefaultPort, IntToDecimal(port))
  }

  /** A template without the placeholder is written back unchanged. */
  lemma PackageUntouched(text: string, placeholder: string, name: string)
    requires placeholder != [] && !Occurs(text, placeholder)
    ensures PackageText(text, placeholder, name) == text
  {
    ReplaceAllAbsent(text, placeholder, name);
  }

  /** A template holding the placeholder once has exactly that occurrence
      replaced by the project name, and nothing else changes. */
  lemma PackageRenamed(before: string, placeholder: string, after: string, name: string)
    requires placeholder != []
    requires forall j :: 0 <= j < |before| ==> !OccursAt(before + placeholder + after, placeholder, j)
    requires !Occurs(after, placeholder)
    ensures PackageText(before + placeholder + after, placeholder, name) == before + name + after
  {
    var t := before + placeholder + after;
    assert t[|before|..|before| + |placeholder|] == placeholder;
    ReplaceAllLeftmost(t, placeholder, name, |before|);
    assert t[..|before|] == before;
    assert t[|before| + |placeholder|..] == after;
    ReplaceAllAbsent(after, placeholder, name);
  }

  /** With the default port the second pass changes nothing: `.env` is
      rewritten exactly as `package.json` is. */
  lemma EnvDefaultPort(text: string, placeholder: string, name: string)
    requires placeholder != []
    ensures EnvText(text, placeholder, name, 3000) == PackageText(text, placeholder, name)
  {
    Decimal3000();
    ReplaceAllSelf(ReplaceAll(text, placeholder, name), DefaultPort);
  }

  /** The port pass runs over the project name too: a placeholder line becomes
      the name with each of its `3000`s replaced by the port. */
  lemma EnvRewritesName(placeholder: string, name: string, port: int)
    requires placeholder != []
    ensures EnvText(placeholder, placeholder, name, port) == ReplaceAll(name, DefaultPort, IntToDecimal(port))
  {
    ReplaceAllWhole(placeholder, name);
  }

  /** A project called `3000` ends up in `.env` under the port's digits. */
  lemma EnvNameIsPort(placeholder: string, port: int)
    requires placeholder != []
    ensures EnvText(placeholder, placeholder, DefaultPort, port) == IntToDecimal(port)
  {
    EnvRewritesName(placeholder, DefaultPort, port);
    ReplaceAllWhole(DefaultPort, IntToDecimal(port));
  }

  /** The order of the two passes matters: run the other way round, a project
      called `3000` keeps its name while the source's order turns it into the port. */
  lemma EnvOrderMatters(placeholder: string, port: int)
    requires placeholder != [] && '3' !in placeholder && port != 3000
    ensures EnvText(placeholder, placeholder, DefaultPort, port)
         != ReplaceAll(ReplaceAll(placeholder, DefaultPort, IntToDecimal(port)), placeholder, DefaultPort)
  {
    EnvNameIsPort(placeholder, port);
    forall i | 0 <= i <= |placeholder|
      ensures !OccursAt(placeholder, DefaultPort, i)
    {
      if i + 4 <= |placeholder| {
        assert placeholder[i..i + 4][0] == placeholder[i];
      }
    }
    ReplaceAllAbsent(placeholder, DefaultPort, IntToDecimal(port));
    ReplaceAllWhole(placeholder, DefaultPort);
    PortDigits(port);
  }

  /** Only port 3000 is written as `3000`. */
  lemma PortDigits(port: int)
    requires port != 3000
    ensures IntToDecimal(port) != DefaultPort
  {
    IntToDecimalValue(port);
    IntToDecimalValue(3000);
    Decimal3000();
  }
}
