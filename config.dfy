/**
 * mltemplate/core/config.py: loading the INI configuration, expanding a leading "~" to the
 * home directory, and rendering the configuration as text with double quotes.
 */
module Config {
  import opened Wrappers
  import opened Text

  /** One INI section as the parser reads it: its name and its (key, value) pairs in file order. */
  datatype Section = Section(name: string, entries: seq<(string, string)>)

  datatype ConfigError =
    | FileNotFoundError(message: string)
    | IndexError(message: string)

  /** Some value of some section is the empty string (the loader indexes `v[0]`). */
  predicate HasEmptyValue(sections: seq<Section>)
  {
    exists i, j :: 0 <= i < |sections| && 0 <= j < |sections[i].entries| && sections[i].entries[j].1 == ""
  }

  /** A value that starts with "~" has EVERY "~" replaced by the home directory; other values stay as they are. */
  function ExpandedValue(v: string, home: string): string
  {
    if |v| > 0 && v[0] == '~' then ReplaceChar(v, '~', home) else v
  }

  function ExpandedEntries(entries: seq<(string, string)>, home: string): (r: seq<(string, string)>)
    ensures |r| == |entries|
    ensures forall j :: 0 <= j < |entries| ==> r[j] == (entries[j].0, ExpandedValue(entries[j].1, home))
  {
    seq(|entries|, j requires 0 <= j < |entries| => (entries[j].0, ExpandedValue(entries[j].1, home)))
  }

  function ExpandedSections(sections: seq<Section>, home: string): (r: seq<Section>)
    ensures |r| == |sections|
    ensures forall i :: 0 <= i < |sections| ==> r[i] == Section(sections[i].name, ExpandedEntries(sections[i].entries, home))
  {
    seq(|sections|, i requires 0 <= i < |sections| => Section(sections[i].name, ExpandedEntries(sections[i].entries, home)))
  }

  /**
   * The file `Config(config_path)` reads: the given path, or "config.ini" in the directory that
   * holds the module (passed in, already resolved to a real path).
   */
  function ConfigPath(configPath: Option<string>, moduleDir: string): (p: string)
    ensures configPath.Some? ==> p == configPath.value
    ensures configPath.None? ==> |p| >= |moduleDir| + 10 && p[..|moduleDir|] == moduleDir && p[|p| - 10..] == "config.ini"
    ensures configPath.None? && |moduleDir| > 0 && moduleDir[|moduleDir| - 1] != '/' ==> p[|moduleDir|] == '/'
  {
    if configPath.Some? then configPath.value else Join(moduleDir, "config.ini")
  }

  /** What `Config(config_path)` ends with: an error, or the sections with their values expanded. */
  function Loaded(pathExists: bool, configPath: string, sections: seq<Section>, home: string): (r: Result<seq<Section>, ConfigError>)
    ensures r.Success? <==> pathExists && !HasEmptyValue(sections)
    ensures !pathExists ==> r == Failure(FileNotFoundError("No such file \"" + configPath + "\"."))
    ensures pathExists && HasEmptyValue(sections) ==> r.Failure? && r.error.IndexError?
  {
    if !pathExists then Failure(FileNotFoundError("No such file \"" + configPath + "\"."))
    else if HasEmptyValue(sections) then Failure(IndexError("string index out of range"))
    else Success(ExpandedSections(sections, home))
  }

  /**
   * `Config.__init__`: a missing file raises FileNotFoundError; otherwise the nested loop over
   * sections and keys rewrites each value that starts with "~" in place. `sections` is what the
   * INI parser read (keys keep their case); `home` is `os.path.expanduser("~")`.
   */
  method Load(pathExists: bool, configPath: string, parsed: seq<Section>, home: string)
    returns (r: Result<seq<Section>, ConfigError>)
    ensures r == Loaded(pathExists, configPath, parsed, home)
  {
    if !pathExists {
      return Failure(FileNotFoundError("No such file \"" + configPath + "\"."));
    }
    var config := parsed;
    var i := 0;
    while i < |config|
      invariant 0 <= i <= |config| == |parsed|
      invariant forall s :: 0 <= s < i ==> config[s] == Section(parsed[s].name, ExpandedEntries(parsed[s].entries, home))
      invariant config[i..] == parsed[i..]
      invariant forall s, t :: 0 <= s < i && 0 <= t < |parsed[s].entries| ==> parsed[s].entries[t].1 != ""
    {
      var entries := config[i].entries;
      assert config[i] == parsed[i] by { assert config[i..][0] == parsed[i..][0]; }
      var j := 0;
      while j < |entries|
        invariant 0 <= j <= |entries| == |parsed[i].entries|
        invariant forall t :: 0 <= t < j ==> entries[t] == (parsed[i].entries[t].0, ExpandedValue(parsed[i].entries[t].1, home))
        invariant entries[j..] == parsed[i].entries[j..]
        invariant forall t :: 0 <= t < j ==> parsed[i].entries[t].1 != ""
      {
        var (k, v) := entries[j];
        assert entries[j] == parsed[i].entries[j] by { assert entries[j..][0] == parsed[i].entries[j..][0]; }
        if |v| == 0 {
          assert parsed[i].entries[j].1 == "";
          return Failure(IndexError("string index out of range"));
        }
        if v[0] == '~' {
          entries := entries[j := (k, ReplaceChar(v, '~', home))];
        }
        j := j + 1;
      }
      assert entries == ExpandedEntries(parsed[i].entries, home);
      config := config[i := Section(config[i].name, entries)];
      i := i + 1;
    }
    assert config == ExpandedSections(parsed, home);
    return Success(config);
  }

  /**
   * What loading promises: it fails exactly for a missing file or an empty value; otherwise every
   * section and key is kept, in order and with its case, a value starting with "~" keeps no "~"
   * (unless the home directory itself has one), and every other value is unchanged.
   */
  lemma LoadedMeaning(pathExists: bool, configPath: string, sections: seq<Section>, home: string)
    ensures Loaded(pathExists, configPath, sections, home).Success? <==> pathExists && !HasEmptyValue(sections)
    ensures !pathExists ==> Loaded(pathExists, configPath, sections, home).Failure?
                            && Loaded(pathExists, configPath, sections, home).error.FileNotFoundError?
    ensures Loaded(pathExists, configPath, sections, home).Success? ==>
      var r := Loaded(pathExists, configPath, sections, home).value;
      && |r| == |sections|
      && (forall i :: 0 <= i < |r| ==> r[i].name == sections[i].name && |r[i].entries| == |sections[i].entries|)
      && (forall i, j :: 0 <= i < |r| && 0 <= j < |r[i].entries| ==>
            && r[i].entries[j].0 == sections[i].entries[j].0
            && (sections[i].entries[j].1[0] != '~' ==> r[i].entries[j].1 == sections[i].entries[j].1)
            && ('~' !in home ==> '~' !in r[i].entries[j].1 || sections[i].entries[j].1[0] != '~'))
  {
    if pathExists && !HasEmptyValue(sections) {
      var r := ExpandedSections(sections, home);
      forall i, j | 0 <= i < |r| && 0 <= j < |r[i].entries| && '~' !in home && sections[i].entries[j].1[0] == '~'
        ensures '~' !in r[i].entries[j].1
      {
        ReplaceCharRemovesAll(sections[i].entries[j].1, '~', home);
      }
    }
  }

  // Rendering: `str(config)` is Python's repr of {section: {key: value}} with every single quote
  // turned into a double quote; `as_dict` reads that text back as JSON.

  /** A string literal delimited by `q`. */
  function Quoted(s: string, q: char): string
  {
    [q] + s + [q]
  }

  function EntriesText(entries: seq<(string, string)>, q: char): string
  {
    if entries == [] then ""
    else Quoted(entries[0].0, q) + ": " + Quoted(entries[0].1, q)
         + (if |entries| > 1 then ", " else "") + EntriesText(entries[1..], q)
  }

  function SectionsText(sections: seq<Section>, q: char): string
  {
    if sections == [] then ""
    else Quoted(sections[0].name, q) + ": {" + EntriesText(sections[0].entries, q) + "}"
         + (if |sections| > 1 then ", " else "") + SectionsText(sections[1..], q)
  }

  /** The nested dictionary written with `q` as the string delimiter. */
  function DictText(sections: seq<Section>, q: char): (r: string)
    ensures |r| >= 2 && r[0] == '{' && r[|r| - 1] == '}'
    ensures r[1..|r| - 1] == SectionsText(sections, q)
  {
    "{" + SectionsText(sections, q) + "}"
  }

  /** `Config.__str__`: the Python repr (single-quoted strings) with every ' replaced by ". */
  function ConfigText(sections: seq<Section>): (r: string)
    ensures '\'' !in r
  {
    ReplaceCharRemovesAll(DictText(sections, '\''), '\'', "\"");
    ReplaceChar(DictText(sections, '\''), '\'', "\"")
  }

  /** No name, key or value holds a single quote. */
  predicate NoSingleQuotes(sections: seq<Section>)
  {
    forall i :: 0 <= i < |sections| ==>
      && '\'' !in sections[i].name
      && forall j :: 0 <= j < |sections[i].entries| ==>
           '\'' !in sections[i].entries[j].0 && '\'' !in sections[i].entries[j].1
  }

  lemma QuotedSwap(s: string)
    requires '\'' !in s
    ensures ReplaceChar(Quoted(s, '\''), '\'', "\"") == Quoted(s, '"')
  {
    ReplaceCharConcat(['\''] + s, ['\''], '\'', "\"");
    ReplaceCharConcat(['\''], s, '\'', "\"");
    ReplaceCharAbsent(s, '\'', "\"");
  }

  lemma ReplaceCharPunctuation(s: string)
    requires s == ": " || s == ", " || s == "" || s == "{" || s == "}" || s == ": {"
    ensures ReplaceChar(s, '\'', "\"") == s
  {
    ReplaceCharAbsent(s, '\'', "\"");
  }

  lemma {:induction false} EntriesTextSwap(entries: seq<(string, string)>)
    requires forall j :: 0 <= j < |entries| ==> '\'' !in entries[j].0 && '\'' !in entries[j].1
    ensures ReplaceChar(EntriesText(entries, '\''), '\'', "\"") == EntriesText(entries, '"')
  {
    if entries != [] {
      var sep := if |entries| > 1 then ", " else "";
      var a := Quoted(entries[0].0, '\'');
      var b := Quoted(entries[0].1, '\'');
      var rest := EntriesText(entries[1..], '\'');
      assert EntriesText(entries, '\'') == a + ": " + b + sep + rest;
      ReplaceCharConcat(a + ": " + b + sep, rest, '\'', "\"");
      ReplaceCharConcat(a + ": " + b, sep, '\'', "\"");
      ReplaceCharConcat(a + ": ", b, '\'', "\"");
      ReplaceCharConcat(a, ": ", '\'', "\"");
      QuotedSwap(entries[0].0);
      QuotedSwap(entries[0].1);
      ReplaceCharPunctuation(": ");
      ReplaceCharPunctuation(sep);
      EntriesTextSwap(entries[1..]);
    }
  }

  lemma {:induction false} SectionsTextSwap(sections: seq<Section>)
    requires NoSingleQuotes(sections)
    ensures ReplaceChar(SectionsText(sections, '\''), '\'', "\"") == SectionsText(sections, '"')
  {
    if sections != [] {
      var sep := if |sections| > 1 then ", " else "";
      var a := Quoted(sections[0].name, '\'');
      var e := EntriesText(sections[0].entries, '\'');
      var rest := SectionsText(sections[1..], '\'');
      assert SectionsText(sections, '\'') == a + ": {" + e + "}" + sep + rest;
      ReplaceCharConcat(a + ": {" + e + "}" + sep, rest, '\'', "\"");
      ReplaceCharConcat(a + ": {" + e + "}", sep, '\'', "\"");
      ReplaceCharConcat(a + ": {" + e, "}", '\'', "\"");
      ReplaceCharConcat(a + ": {", e, '\'', "\"");
      ReplaceCharConcat(a, ": {", '\'', "\"");
      QuotedSwap(sections[0].name);
      ReplaceCharPunctuation(": {");
      ReplaceCharPunctuation("}");
      ReplaceCharPunctuation(sep);
      EntriesTextSwap(sections[0].entries);
      assert NoSingleQuotes(sections[1..]) by {
        forall i | 0 <= i < |sections[1..]| ensures '\'' !in sections[1..][i].name {
          assert sections[1..][i] == sections[i + 1];
        }
      }
      SectionsTextSwap(sections[1..]);
    }
  }

  /**
   * When no name, key or value holds a single quote, `str(config)` is exactly the text of the
   * nested dictionary with every string in double quotes. This is JSON only when no value also
   * holds a double quote or a backslash; `as_dict` passes this text to `json.loads`.
   */
  lemma ConfigTextDoubleQuoted(sections: seq<Section>)
    requires NoSingleQuotes(sections)
    ensures ConfigText(sections) == DictText(sections, '"')
  {
    var inner := SectionsText(sections, '\'');
    ReplaceCharConcat("{" + inner, "}", '\'', "\"");
    ReplaceCharConcat("{", inner, '\'', "\"");
    ReplaceCharPunctuation("{");
    ReplaceCharPunctuation("}");
    SectionsTextSwap(sections);
  }
}
