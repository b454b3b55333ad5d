/**
  The re-indentation that places a plugin's default YAML configuration under
  `plugin_config.<alias>`, the section of the user's configuration the plugin reads.
  Parsing and layering the YAML are not modelled.
*/
module PluginConfig {
  import opened Strings

  /** The key under which a plugin's configuration is looked up. */
  function PluginConfigKey(alias: string): (key: string)
    ensures |key| == 14 + |alias|
    ensures key[..14] == "plugin_config." && key[14..] == alias
  {
    "plugin_config." + alias
  }

  /** The key names one alias: different aliases have different keys. */
  lemma PluginConfigKeyInjective(a1: string, a2: string)
    ensures PluginConfigKey(a1) == PluginConfigKey(a2) <==> a1 == a2
  {
    if PluginConfigKey(a1) == PluginConfigKey(a2) {
      assert a1 == PluginConfigKey(a1)[14..];
    }
  }

  /** `prepend_two_spaces`: the line indented by two spaces. */
  function PrependTwoSpaces(line: string): (r: string)
    ensures |r| == |line| + 2
    ensures r[..2] == "  " && r[2..] == line
  {
    "  " + line
  }

  /** Every line of the input, indented. */
  function IndentAll(lines: seq<string>): (r: seq<string>)
    ensures |r| == |lines|
    ensures forall k :: 0 <= k < |r| ==> r[k] == PrependTwoSpaces(lines[k])
  {
    if lines == [] then [] else [PrependTwoSpaces(lines[0])] + IndentAll(lines[1..])
  }

  /** The two header lines that open the `plugin_config` section and the alias's subsection. */
  function Header(alias: string): string
  {
    "plugin_config:\n " + alias + ":\n"
  }

  /**
    `preprocess_plugin_config`: the header, then the input's lines, each indented by two
    spaces and separated by a newline.
  */
  function PreprocessPluginConfig(config: string, alias: string): (r: string)
    ensures |Header(alias)| <= |r| && r[..|Header(alias)|] == Header(alias)
  {
    Header(alias) + Join(IndentAll(Lines(config)), '\n')
  }

  /** What follows the header in the preprocessed configuration. */
  function Body(config: string, alias: string): string
  {
    PreprocessPluginConfig(config, alias)[|Header(alias)|..]
  }

  /**
    After the header come exactly the input's lines, each indented and in order: splitting
    the rest on newlines gives one piece per input line.
  */
  lemma BodyLines(config: string, alias: string)
    requires Lines(config) != []
    ensures Split(Body(config, alias), '\n') == IndentAll(Lines(config))
    ensures |Split(Body(config, alias), '\n')| == |Lines(config)|
  {
    var indented := IndentAll(Lines(config));
    assert Body(config, alias) == Join(indented, '\n');
    forall k | 0 <= k < |indented|
      ensures '\n' !in indented[k]
    {
      assert indented[k] == "  " + Lines(config)[k];
    }
    SplitJoin(indented, '\n');
  }

  /** An input without lines gives the header alone. */
  lemma NoLinesHeaderOnly(config: string, alias: string)
    requires Lines(config) == []
    ensures PreprocessPluginConfig(config, alias) == Header(alias)
  {
    assert Join([], '\n') == "";
  }

  /** Joining lines that have no separator in them never ends with the separator. */
  lemma {:induction false} JoinLastChar(parts: seq<string>, sep: char)
    requires |parts| >= 1 && parts[|parts| - 1] != []
    requires forall k :: 0 <= k < |parts| ==> sep !in parts[k]
    ensures Join(parts, sep) != [] && Join(parts, sep)[|Join(parts, sep)| - 1] != sep
  {
    if |parts| > 1 {
      JoinLastChar(parts[1..], sep);
      var tail := Join(parts[1..], sep);
      assert Join(parts, sep) == parts[0] + [sep] + tail;
    } else {
      var last := parts[0];
      assert last[|last| - 1] in last;
    }
  }

  /** No newline is added after the last line: a non-empty configuration does not end in one. */
  lemma NoTrailingNewline(config: string, alias: string)
    requires Lines(config) != []
    ensures var r := PreprocessPluginConfig(config, alias); r[|r| - 1] != '\n'
  {
    var indented := IndentAll(Lines(config));
    forall k | 0 <= k < |indented|
      ensures '\n' !in indented[k]
    {
      assert indented[k] == "  " + Lines(config)[k];
    }
    assert indented[|indented| - 1] != [];
    JoinLastChar(indented, '\n');
    var body := Join(indented, '\n');
    var r := PreprocessPluginConfig(config, alias);
    assert r == Header(alias) + body;
    assert r[|r| - 1] == body[|body| - 1];
  }
}
