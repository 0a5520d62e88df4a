/**
 * Command-line plugin options (core/src/config/cli.rs): `plugin:key=value`
 * parsed into a PluginOption whose value is read as a TOML value, and the
 * grouping of options into one table per plugin.
 *
 * Recognising floats and TOML datetimes is done by library parsers; they are
 * supplied as a Recognisers record, and a recognised value keeps its text.
 */
module CliConfig {
  import opened Wrappers
  import opened Texts

  /** toml::Value. */
  datatype TomlValue =
    | Integer(i: int)
    | Float(floatText: string)
    | Boolean(b: bool)
    | Datetime(datetimeText: string)
    | Array(items: seq<TomlValue>)
    | Table(entries: map<string, TomlValue>)
    | String(s: string)

  /** The library recognisers: f64's FromStr and toml's Datetime::from_str. */
  datatype Recognisers = Recognisers(isFloat: string -> bool, isDatetime: string -> bool)

  datatype CliError = MalformedValue | NoPluginPrefix | NoValue

  datatype PluginOption = PluginOption(key: string, pluginName: string, value: TomlValue)

  /** bool's FromStr. */
  function ParseBool(s: string): (r: Option<bool>)
    ensures r == Some(true) <==> s == "true"
    ensures r == Some(false) <==> s == "false"
    ensures r.None? <==> s != "true" && s != "false"
  {
    if s == "true" then Some(true) else if s == "false" then Some(false) else None
  }

  /** `s` starts with `open` and ends with `close`. */
  predicate Enclosed(s: string, open: char, close: char) {
    |s| > 0 && s[0] == open && s[|s| - 1] == close
  }

  /** A value that is an integer, float, boolean or datetime. */
  predicate IsScalar(s: string, rec: Recognisers) {
    ParseI64(s).Some? || rec.isFloat(s) || ParseBool(s).Some? || rec.isDatetime(s)
  }

  /**
   * parse_cli: integer, then float, then boolean, then datetime; then
   * "[...]" as an array of the comma-separated pieces and "{...}" as a table of
   * "key=value" pieces; anything else is a string of the text itself.
   */
  function ParseCli(s: string, rec: Recognisers): Result<TomlValue, CliError>
    decreases |s|, 1
  {
    if ParseI64(s).Some? then Ok(Integer(ParseI64(s).value))
    else if rec.isFloat(s) then Ok(Float(s))
    else if ParseBool(s).Some? then Ok(Boolean(ParseBool(s).value))
    else if rec.isDatetime(s) then Ok(Datetime(s))
    else if Enclosed(s, '[', ']') then
      // '[' and ']' are one byte each, so the inner slice always exists.
      var content := s[1..|s| - 1];
      SplitPieces(content, ',');
      var items :- ParseItems(Split(content, ','), |s|, rec);
      Ok(Array(items))
    else if Enclosed(s, '{', '}') then
      var content := s[1..|s| - 1];
      SplitPieces(content, ',');
      var entries :- ParseEntries(Split(content, ','), |s|, rec, map[]);
      Ok(Table(entries))
    else Ok(String(s))
  }

  /** The array pieces parsed in order; the first failure is the result. */
  function ParseItems(pieces: seq<string>, bound: nat, rec: Recognisers): (r: Result<seq<TomlValue>, CliError>)
    requires forall i :: 0 <= i < |pieces| ==> |pieces[i]| < bound
    ensures r.Ok? ==> |r.value| == |pieces|
    ensures r.Ok? ==> forall i :: 0 <= i < |pieces| ==> ParseCli(pieces[i], rec) == Ok(r.value[i])
    ensures r.Err? <==> exists i :: 0 <= i < |pieces| && ParseCli(pieces[i], rec).Err?
    decreases bound, 0, |pieces|
  {
    if pieces == [] then Ok([])
    else
      var head :- ParseCli(pieces[0], rec);
      var tail :- ParseItems(pieces[1..], bound, rec);
      assert forall i :: 1 <= i < |pieces| ==> pieces[i] == pieces[1..][i - 1];
      Ok([head] + tail)
  }

  /**
   * The table pieces parsed in order into `acc`: a piece without '=' is
   * MalformedValue, and a later piece with the same key replaces an earlier one.
   */
  function ParseEntries(pieces: seq<string>, bound: nat, rec: Recognisers, acc: map<string, TomlValue>)
    : (r: Result<map<string, TomlValue>, CliError>)
    requires forall i :: 0 <= i < |pieces| ==> |pieces[i]| < bound
    ensures r.Ok? ==> acc.Keys <= r.value.Keys
    ensures r.Ok? ==> forall i :: 0 <= i < |pieces| ==> SplitOnce(pieces[i], '=').Some?
    decreases bound, 0, |pieces|
  {
    if pieces == [] then Ok(acc)
    else
      match SplitOnce(pieces[0], '=')
      case None => Err(MalformedValue)
      case Some((key, text)) =>
        var value :- ParseCli(text, rec);
        var r := ParseEntries(pieces[1..], bound, rec, acc[key := value]);
        assert forall i :: 1 <= i < |pieces| ==> pieces[i] == pieces[1..][i - 1];
        r
  }
  /** A successful ParseEntries reads its first piece, then the rest into `acc` updated with it. */
  lemma ParseEntriesStep(pieces: seq<string>, bound: nat, rec: Recognisers, acc: map<string, TomlValue>)
    requires forall i :: 0 <= i < |pieces| ==> |pieces[i]| < bound
    requires ParseEntries(pieces, bound, rec, acc).Ok? && pieces != []
    ensures AllEntries(pieces) && ParseCli(EntryText(pieces[0]), rec).Ok?
    ensures var acc' := acc[EntryKey(pieces[0]) := ParseCli(EntryText(pieces[0]), rec).value];
            ParseEntries(pieces[1..], bound, rec, acc') == ParseEntries(pieces, bound, rec, acc)
  {
  }

  /** A successful ParseEntries holds the keys of `acc` and of the pieces, and no others. */
  lemma {:induction false} ParseEntriesKeys(pieces: seq<string>, bound: nat, rec: Recognisers, acc: map<string, TomlValue>)
    requires forall i :: 0 <= i < |pieces| ==> |pieces[i]| < bound
    requires ParseEntries(pieces, bound, rec, acc).Ok?
    ensures AllEntries(pieces)
    ensures var m := ParseEntries(pieces, bound, rec, acc).value;
            forall k :: k in m <==> k in acc || exists i :: 0 <= i < |pieces| && EntryKey(pieces[i]) == k
    decreases |pieces|
  {
    if pieces != [] {
      ParseEntriesStep(pieces, bound, rec, acc);
      var tail := pieces[1..];
      var acc' := acc[EntryKey(pieces[0]) := ParseCli(EntryText(pieces[0]), rec).value];
      ParseEntriesKeys(tail, bound, rec, acc');
      var m := ParseEntries(pieces, bound, rec, acc).value;
      forall k ensures k in m <==> k in acc || exists i :: 0 <= i < |pieces| && EntryKey(pieces[i]) == k {
        if exists i :: 0 <= i < |tail| && EntryKey(tail[i]) == k {
          var i :| 0 <= i < |tail| && EntryKey(tail[i]) == k;
          assert pieces[i + 1] == tail[i];
        }
        if exists i :: 0 <= i < |pieces| && EntryKey(pieces[i]) == k {
          var i :| 0 <= i < |pieces| && EntryKey(pieces[i]) == k;
          if i > 0 { assert tail[i - 1] == pieces[i]; }
        }
      }
    }
  }

  /** A key of `acc` that no piece gives keeps its value. */
  lemma {:induction false} ParseEntriesKeeps(pieces: seq<string>, bound: nat, rec: Recognisers, acc: map<string, TomlValue>, k: string)
    requires forall i :: 0 <= i < |pieces| ==> |pieces[i]| < bound
    requires ParseEntries(pieces, bound, rec, acc).Ok?
    requires k in acc && forall i :: 0 <= i < |pieces| ==> SplitOnce(pieces[i], '=').Some? && EntryKey(pieces[i]) != k
    ensures k in ParseEntries(pieces, bound, rec, acc).value && ParseEntries(pieces, bound, rec, acc).value[k] == acc[k]
    decreases |pieces|
  {
    if pieces != [] {
      ParseEntriesStep(pieces, bound, rec, acc);
      var tail := pieces[1..];
      var acc' := acc[EntryKey(pieces[0]) := ParseCli(EntryText(pieces[0]), rec).value];
      assert forall i :: 0 <= i < |tail| ==> tail[i] == pieces[i + 1];
      ParseEntriesKeeps(tail, bound, rec, acc', k);
    }
  }

  /** The value of a piece's key is that piece's value when no later piece has the same key. */
  lemma {:induction false} ParseEntriesLast(pieces: seq<string>, bound: nat, rec: Recognisers, acc: map<string, TomlValue>, i: nat)
    requires forall i :: 0 <= i < |pieces| ==> |pieces[i]| < bound
    requires ParseEntries(pieces, bound, rec, acc).Ok?
    requires AllEntries(pieces) && i < |pieces| && LastOfKey(pieces, i)
    ensures var m := ParseEntries(pieces, bound, rec, acc).value;
            EntryKey(pieces[i]) in m && ParseCli(EntryText(pieces[i]), rec) == Ok(m[EntryKey(pieces[i])])
    decreases |pieces|
  {
    ParseEntriesStep(pieces, bound, rec, acc);
    var tail := pieces[1..];
    var key := EntryKey(pieces[0]);
    var acc' := acc[key := ParseCli(EntryText(pieces[0]), rec).value];
    assert forall j :: 0 <= j < |tail| ==> tail[j] == pieces[j + 1];
    if i == 0 {
      ParseEntriesKeeps(tail, bound, rec, acc', key);
    } else {
      ParseEntriesLast(tail, bound, rec, acc', i - 1);
    }
  }

  /** The value of the last piece's key is that piece's value: a later key replaces an earlier one. */
  lemma {:induction false} ParseEntriesLastWins(pieces: seq<string>, bound: nat, rec: Recognisers, acc: map<string, TomlValue>)
    requires forall i :: 0 <= i < |pieces| ==> |pieces[i]| < bound
    requires ParseEntries(pieces, bound, rec, acc).Ok? && |pieces| > 0
    ensures var (key, text) := SplitOnce(pieces[|pieces| - 1], '=').value;
            key in ParseEntries(pieces, bound, rec, acc).value
            && ParseCli(text, rec) == Ok(ParseEntries(pieces, bound, rec, acc).value[key])
    decreases |pieces|
  {
    var (key, text) := SplitOnce(pieces[0], '=').value;
    var value := ParseCli(text, rec).value;
    if |pieces| > 1 {
      ParseEntriesLastWins(pieces[1..], bound, rec, acc[key := value]);
      assert pieces[1..][|pieces| - 2] == pieces[|pieces| - 1];
    }
  }


  /** parse_cli fails only with MalformedValue, and only on text holding a '{'. */
  lemma {:induction false} ParseCliFailure(s: string, rec: Recognisers)
    ensures ParseCli(s, rec).Err? ==> ParseCli(s, rec).error == MalformedValue && '{' in s
    decreases |s|, 2
  {
    if !IsScalar(s, rec) && Enclosed(s, '[', ']') {
      ArrayFailure(s, rec);
    } else if !IsScalar(s, rec) && !Enclosed(s, '[', ']') && Enclosed(s, '{', '}') {
      assert s[0] == '{';
      var content := s[1..|s| - 1];
      SplitPieces(content, ',');
      ParseEntriesFailure(Split(content, ','), |s|, rec, map[]);
    }
  }

  /** The array case of ParseCliFailure: a failing piece holds a '{', and so does the array. */
  lemma {:induction false} ArrayFailure(s: string, rec: Recognisers)
    requires !IsScalar(s, rec) && Enclosed(s, '[', ']')
    ensures ParseCli(s, rec).Err? ==> ParseCli(s, rec).error == MalformedValue && '{' in s
    decreases |s|, 1
  {
    var content := s[1..|s| - 1];
    SplitPieces(content, ',');
    var pieces := Split(content, ',');
    ParseItemsFailure(pieces, |s|, rec);
    if ParseItems(pieces, |s|, rec).Err? {
      var i :| 0 <= i < |pieces| && ParseCli(pieces[i], rec).Err?;
      ParseCliFailure(pieces[i], rec);
      SplitJoin(content, ',');
      JoinHolds(pieces, ',', i, '{');
      assert '{' in content;
      var k :| 0 <= k < |content| && content[k] == '{';
      assert s[k + 1] == '{';
    }
  }

  lemma {:induction false} ParseItemsFailure(pieces: seq<string>, bound: nat, rec: Recognisers)
    requires forall i :: 0 <= i < |pieces| ==> |pieces[i]| < bound
    ensures ParseItems(pieces, bound, rec).Err? ==> ParseItems(pieces, bound, rec).error == MalformedValue
    decreases bound, 0, |pieces|
  {
    if pieces != [] {
      ParseCliFailure(pieces[0], rec);
      ParseItemsFailure(pieces[1..], bound, rec);
    }
  }

  lemma {:induction false} ParseEntriesFailure(pieces: seq<string>, bound: nat, rec: Recognisers, acc: map<string, TomlValue>)
    requires forall i :: 0 <= i < |pieces| ==> |pieces[i]| < bound
    ensures ParseEntries(pieces, bound, rec, acc).Err? ==> ParseEntries(pieces, bound, rec, acc).error == MalformedValue
    decreases bound, 0, |pieces|
  {
    if pieces != [] && SplitOnce(pieces[0], '=').Some? {
      var (key, text) := SplitOnce(pieces[0], '=').value;
      assert |text| < |pieces[0]|;
      ParseCliFailure(text, rec);
      if ParseCli(text, rec).Ok? {
        ParseEntriesFailure(pieces[1..], bound, rec, acc[key := ParseCli(text, rec).value]);
      }
    }
  }

  /**
   * PluginOption::from_str: split at the first ':' (else NoPluginPrefix), the
   * rest at the first '=' (else NoValue; later '=' stay in the value), and
   * read the value with parse_cli.
   */
  function FromStr(s: string, rec: Recognisers): Result<PluginOption, CliError>
  {
    match SplitOnce(s, ':')
    case None => Err(NoPluginPrefix)
    case Some((pluginName, option)) =>
      match SplitOnce(option, '=')
      case None => Err(NoValue)
      case Some((key, text)) =>
        var value :- ParseCli(text, rec);
        Ok(PluginOption(key, pluginName, value))
  }

  /** NoPluginPrefix without ':'; NoValue without '=' after the first ':'; otherwise only parse_cli can fail. */
  lemma FromStrErrors(s: string, rec: Recognisers)
    ensures ':' !in s ==> FromStr(s, rec) == Err(NoPluginPrefix)
    ensures ':' in s && '=' !in SplitOnce(s, ':').value.1 ==> FromStr(s, rec) == Err(NoValue)
    ensures FromStr(s, rec).Err? && ':' in s && '=' in SplitOnce(s, ':').value.1 ==>
              FromStr(s, rec).error == MalformedValue
  {
    if ':' in s && '=' in SplitOnce(s, ':').value.1 {
      ParseCliFailure(SplitOnce(SplitOnce(s, ':').value.1, '=').value.1, rec);
    }
  }

  /**
   * A parsed option is the plugin name, ':', the key, '=' and a value text that
   * parse_cli reads as its value; the name holds no ':' and the key no '='.
   */
  lemma FromStrParts(s: string, rec: Recognisers)
    requires FromStr(s, rec).Ok?
    ensures var o := FromStr(s, rec).value;
            exists text :: s == o.pluginName + ":" + o.key + "=" + text && ParseCli(text, rec) == Ok(o.value)
    ensures ':' !in FromStr(s, rec).value.pluginName && '=' !in FromStr(s, rec).value.key
  {
    var (pluginName, option) := SplitOnce(s, ':').value;
    var (key, text) := SplitOnce(option, '=').value;
    var o := FromStr(s, rec).value;
    assert o == PluginOption(key, pluginName, ParseCli(text, rec).value);
    assert s == o.pluginName + ":" + o.key + "=" + text by {
      assert s == pluginName + [':'] + option;
      assert option == key + ['='] + text;
    }
  }

  /** Writing an option out as `plugin:key=value` and reading it back gives its parts. */
  lemma FromStrOfText(pluginName: string, key: string, text: string, rec: Recognisers)
    requires ':' !in pluginName && '=' !in key
    ensures var r := FromStr(pluginName + ":" + key + "=" + text, rec);
            && (ParseCli(text, rec).Ok? ==> r == Ok(PluginOption(key, pluginName, ParseCli(text, rec).value)))
            && (ParseCli(text, rec).Err? ==> r == Err(ParseCli(text, rec).error))
  {
    var s := pluginName + ":" + key + "=" + text;
    assert s == pluginName + [':'] + (key + "=" + text);
    SplitOnceUnique(pluginName, key + "=" + text, ':');
    assert key + "=" + text == key + ['='] + text;
    SplitOnceUnique(key, text, '=');
  }

  /** The value the last option with this plugin and key carries, if any. */
  function LastValue(options: seq<PluginOption>, pluginName: string, key: string): Option<TomlValue>
  {
    if options == [] then None
    else
      var last := options[|options| - 1];
      if last.pluginName == pluginName && last.key == key then Some(last.value)
      else LastValue(options[..|options| - 1], pluginName, key)
  }

  /** Options folded in order into one table per plugin, a later option overwriting an earlier key. */
  function Grouped(options: seq<PluginOption>): map<string, map<string, TomlValue>>
  {
    if options == [] then map[]
    else
      var g := Grouped(options[..|options| - 1]);
      var last := options[|options| - 1];
      var table := if last.pluginName in g then g[last.pluginName] else map[];
      g[last.pluginName := table[last.key := last.value]]
  }

  /**
   * The grouped tables: one per plugin named by an option; in each, every key
   * an option gave, valued by the last such option.
   */
  lemma {:induction false} GroupedSpec(options: seq<PluginOption>)
    ensures forall p :: p in Grouped(options) <==> exists i :: 0 <= i < |options| && options[i].pluginName == p
    ensures forall p, k :: p in Grouped(options) && k in Grouped(options)[p] <==> LastValue(options, p, k).Some?
    ensures forall p, k :: p in Grouped(options) && k in Grouped(options)[p] ==>
              Grouped(options)[p][k] == LastValue(options, p, k).value
  {
    if options != [] {
      var init := options[..|options| - 1];
      GroupedSpec(init);
      forall p | exists i :: 0 <= i < |options| && options[i].pluginName == p
        ensures p in Grouped(options)
      {
        var i :| 0 <= i < |options| && options[i].pluginName == p;
        if i < |options| - 1 {
          assert init[i] == options[i];
        }
      }
      forall p | p in Grouped(options)
        ensures exists i :: 0 <= i < |options| && options[i].pluginName == p
      {
        if p != options[|options| - 1].pluginName {
          assert p in Grouped(init);
          var i :| 0 <= i < |init| && init[i].pluginName == p;
          assert options[i] == init[i];
        }
      }
    }
  }

  /** PluginOption::join_table. */
  method JoinTable(options: seq<PluginOption>) returns (r: map<string, map<string, TomlValue>>)
    ensures r == Grouped(options)
  {
    r := map[];
    var n := 0;
    while n < |options|
      invariant 0 <= n <= |options|
      invariant r == Grouped(options[..n])
    {
      var option := options[n];
      var table := if option.pluginName in r then r[option.pluginName] else map[];
      r := r[option.pluginName := table[option.key := option.value]];
      assert options[..n + 1][..n] == options[..n];
      n := n + 1;
    }
    assert options[..n] == options;
  }
}
