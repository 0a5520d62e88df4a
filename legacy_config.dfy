/**
 * The earlier revision of the option parser (core/src/config.rs): the same
 * `plugin:key=value` syntax, with one more scalar form, a single character,
 * tried between booleans and datetimes, and RFC 3339 timestamps in place of
 * TOML datetimes.
 */
module LegacyConfig {
  import opened Wrappers
  import opened Texts

  /** config.rs TomlValue; a float or timestamp keeps its text. */
  datatype LegacyValue =
    | I64(i: int)
    | F64(floatText: string)
    | Bool(b: bool)
    | Char(c: char)
    | String(s: string)
    | DateTime(datetimeText: string)
    | Array(items: seq<LegacyValue>)
    | Table(entries: map<string, LegacyValue>)

  /** The library recognisers: f64's FromStr and DateTime::parse_from_rfc3339. */
  datatype Recognisers = Recognisers(isFloat: string -> bool, isRfc3339: string -> bool)

  datatype ParseError = NoPluginPrefix | NoValue | MalformedValue

  datatype PluginOption = PluginOption(plugin: string, name: string, value: LegacyValue)

  /** A value that is an integer, float, boolean, character or timestamp. */
  predicate IsScalar(s: string, rec: Recognisers) {
    ParseI64(s).Some? || rec.isFloat(s) || s == "true" || s == "false" || |s| == 1 || rec.isRfc3339(s)
  }

  predicate Enclosed(s: string, open: char, close: char) {
    |s| > 0 && s[0] == open && s[|s| - 1] == close
  }

  /**
   * TomlValue::new: i64, f64, bool, char (exactly one character), RFC 3339
   * timestamp; then "[...]" and "{...}"; anything else is a string.
   */
  function New(s: string, rec: Recognisers): Result<LegacyValue, ParseError>
    decreases |s|, 1
  {
    if ParseI64(s).Some? then Ok(I64(ParseI64(s).value))
    else if rec.isFloat(s) then Ok(F64(s))
    else if s == "true" then Ok(Bool(true))
    else if s == "false" then Ok(Bool(false))
    else if |s| == 1 then Ok(Char(s[0]))
    else if rec.isRfc3339(s) then Ok(DateTime(s))
    else if Enclosed(s, '[', ']') then
      var content := s[1..|s| - 1];
      SplitPieces(content, ',');
      var items :- NewItems(Split(content, ','), |s|, rec);
      Ok(Array(items))
    else if Enclosed(s, '{', '}') then
      var content := s[1..|s| - 1];
      SplitPieces(content, ',');
      var entries :- NewEntries(Split(content, ','), |s|, rec, map[]);
      Ok(Table(entries))
    else Ok(String(s))
  }

  /** The array pieces parsed in order; the first failure is the result. */
  function NewItems(pieces: seq<string>, bound: nat, rec: Recognisers): (r: Result<seq<LegacyValue>, ParseError>)
    requires forall i :: 0 <= i < |pieces| ==> |pieces[i]| < bound
    ensures r.Ok? ==> |r.value| == |pieces|
    ensures r.Ok? ==> forall i :: 0 <= i < |pieces| ==> New(pieces[i], rec) == Ok(r.value[i])
    ensures r.Err? <==> exists i :: 0 <= i < |pieces| && New(pieces[i], rec).Err?
    decreases bound, 0, |pieces|
  {
    if pieces == [] then Ok([])
    else
      var head :- New(pieces[0], rec);
      var tail :- NewItems(pieces[1..], bound, rec);
      assert forall i :: 1 <= i < |pieces| ==> pieces[i] == pieces[1..][i - 1];
      Ok([head] + tail)
  }

  /** The table pieces parsed in order into `acc`; a piece without '=' is MalformedValue; a later key wins. */
  function NewEntries(pieces: seq<string>, bound: nat, rec: Recognisers, acc: map<string, LegacyValue>)
    : (r: Result<map<string, LegacyValue>, ParseError>)
    requires forall i :: 0 <= i < |pieces| ==> |pieces[i]| < bound
    ensures r.Ok? ==> acc.Keys <= r.value.Keys
    ensures r.Ok? ==> forall i :: 0 <= i < |pieces| ==> SplitOnce(pieces[i], '=').Some?
    decreases bound, 0, |pieces|
  {
    if pieces == [] then Ok(acc)
    else
      match SplitOnce(pieces[0], '=')
      case None => Err(MalformedValue)
      case Some((key, text)) =>
        var value :- New(text, rec);
        var r := NewEntries(pieces[1..], bound, rec, acc[key := value]);
        assert forall i :: 1 <= i < |pieces| ==> pieces[i] == pieces[1..][i - 1];
        r
  }
  /** A successful NewEntries reads its first piece, then the rest into `acc` updated with it. */
  lemma NewEntriesStep(pieces: seq<string>, bound: nat, rec: Recognisers, acc: map<string, LegacyValue>)
    requires forall i :: 0 <= i < |pieces| ==> |pieces[i]| < bound
    requires NewEntries(pieces, bound, rec, acc).Ok? && pieces != []
    ensures AllEntries(pieces) && New(EntryText(pieces[0]), rec).Ok?
    ensures var acc' := acc[EntryKey(pieces[0]) := New(EntryText(pieces[0]), rec).value];
            NewEntries(pieces[1..], bound, rec, acc') == NewEntries(pieces, bound, rec, acc)
  {
  }

  /** A successful NewEntries holds the keys of `acc` and of the pieces, and no others. */
  lemma {:induction false} NewEntriesKeys(pieces: seq<string>, bound: nat, rec: Recognisers, acc: map<string, LegacyValue>)
    requires forall i :: 0 <= i < |pieces| ==> |pieces[i]| < bound
    requires NewEntries(pieces, bound, rec, acc).Ok?
    ensures AllEntries(pieces)
    ensures var m := NewEntries(pieces, bound, rec, acc).value;
            forall k :: k in m <==> k in acc || exists i :: 0 <= i < |pieces| && EntryKey(pieces[i]) == k
    decreases |pieces|
  {
    if pieces != [] {
      NewEntriesStep(pieces, bound, rec, acc);
      var tail := pieces[1..];
      var acc' := acc[EntryKey(pieces[0]) := New(EntryText(pieces[0]), rec).value];
      NewEntriesKeys(tail, bound, rec, acc');
      var m := NewEntries(pieces, bound, rec, acc).value;
      forall k ensures k in m <==> k in acc || exists i :: 0 <= i < |pieces| && EntryKey(pieces[i]) == k {
        if exists i :: 0 <= i < |tail| && EntryKey(tail[i]) == k {
          var i :| 0 <= i < |tail| && EntryKey(tail[i]) == k;
          assert pieces[i + 1] == tail[i];
        }
        if exists i :: 0 <= i < |pieces| && EntryKey(pieces[i]) == k {
          var i :| 0 <= i < |pieces| && EntryKey(pieces[i]) == k;
          if i > 0 { assert tail[i - 1] == pieces[i]; }
        }
      }
    }
  }

  /** A key of `acc` that no piece gives keeps its value. */
  lemma {:induction false} NewEntriesKeeps(pieces: seq<string>, bound: nat, rec: Recognisers, acc: map<string, LegacyValue>, k: string)
    requires forall i :: 0 <= i < |pieces| ==> |pieces[i]| < bound
    requires NewEntries(pieces, bound, rec, acc).Ok?
    requires k in acc && forall i :: 0 <= i < |pieces| ==> SplitOnce(pieces[i], '=').Some? && EntryKey(pieces[i]) != k
    ensures k in NewEntries(pieces, bound, rec, acc).value && NewEntries(pieces, bound, rec, acc).value[k] == acc[k]
    decreases |pieces|
  {
    if pieces != [] {
      NewEntriesStep(pieces, bound, rec, acc);
      var tail := pieces[1..];
      var acc' := acc[EntryKey(pieces[0]) := New(EntryText(pieces[0]), rec).value];
      assert forall i :: 0 <= i < |tail| ==> tail[i] == pieces[i + 1];
      NewEntriesKeeps(tail, bound, rec, acc', k);
    }
  }

  /** The value of a piece's key is that piece's value when no later piece has the same key. */
  lemma {:induction false} NewEntriesLast(pieces: seq<string>, bound: nat, rec: Recognisers, acc: map<string, LegacyValue>, i: nat)
    requires forall i :: 0 <= i < |pieces| ==> |pieces[i]| < bound
    requires NewEntries(pieces, bound, rec, acc).Ok?
    requires AllEntries(pieces) && i < |pieces| && LastOfKey(pieces, i)
    ensures var m := NewEntries(pieces, bound, rec, acc).value;
            EntryKey(pieces[i]) in m && New(EntryText(pieces[i]), rec) == Ok(m[EntryKey(pieces[i])])
    decreases |pieces|
  {
    NewEntriesStep(pieces, bound, rec, acc);
    var tail := pieces[1..];
    var key := EntryKey(pieces[0]);
    var acc' := acc[key := New(EntryText(pieces[0]), rec).value];
    assert forall j :: 0 <= j < |tail| ==> tail[j] == pieces[j + 1];
    if i == 0 {
      NewEntriesKeeps(tail, bound, rec, acc', key);
    } else {
      NewEntriesLast(tail, bound, rec, acc', i - 1);
    }
  }

  /** The value of the last piece's key is that piece's value: a later key replaces an earlier one. */
  lemma {:induction false} NewEntriesLastWins(pieces: seq<string>, bound: nat, rec: Recognisers, acc: map<string, LegacyValue>)
    requires forall i :: 0 <= i < |pieces| ==> |pieces[i]| < bound
    requires NewEntries(pieces, bound, rec, acc).Ok? && |pieces| > 0
    ensures var (key, text) := SplitOnce(pieces[|pieces| - 1], '=').value;
            key in NewEntries(pieces, bound, rec, acc).value
            && New(text, rec) == Ok(NewEntries(pieces, bound, rec, acc).value[key])
    decreases |pieces|
  {
    var (key, text) := SplitOnce(pieces[0], '=').value;
    var value := New(text, rec).value;
    if |pieces| > 1 {
      NewEntriesLastWins(pieces[1..], bound, rec, acc[key := value]);
      assert pieces[1..][|pieces| - 2] == pieces[|pieces| - 1];
    }
  }


  /** A single character that is not a number or timestamp is read as that character, never as a string. */
  lemma OneCharacter(c: char, rec: Recognisers)
    requires ParseI64([c]).None? && !rec.isFloat([c])
    ensures New([c], rec) == Ok(Char(c))
  {
  }

  /** TomlValue::new fails only with MalformedValue, and only on text holding a '{'. */
  lemma {:induction false} NewFailure(s: string, rec: Recognisers)
    ensures New(s, rec).Err? ==> New(s, rec).error == MalformedValue && '{' in s
    decreases |s|, 2
  {
    if !IsScalar(s, rec) && Enclosed(s, '[', ']') {
      ArrayFailure(s, rec);
    } else if !IsScalar(s, rec) && !Enclosed(s, '[', ']') && Enclosed(s, '{', '}') {
      assert s[0] == '{';
      var content := s[1..|s| - 1];
      SplitPieces(content, ',');
      NewEntriesFailure(Split(content, ','), |s|, rec, map[]);
    }
  }

  /** The array case of NewFailure. */
  lemma {:induction false} ArrayFailure(s: string, rec: Recognisers)
    requires !IsScalar(s, rec) && Enclosed(s, '[', ']')
    ensures New(s, rec).Err? ==> New(s, rec).error == MalformedValue && '{' in s
    decreases |s|, 1
  {
    var content := s[1..|s| - 1];
    SplitPieces(content, ',');
    var pieces := Split(content, ',');
    NewItemsFailure(pieces, |s|, rec);
    if NewItems(pieces, |s|, rec).Err? {
      var i :| 0 <= i < |pieces| && New(pieces[i], rec).Err?;
      NewFailure(pieces[i], rec);
      SplitJoin(content, ',');
      JoinHolds(pieces, ',', i, '{');
      var k :| 0 <= k < |content| && content[k] == '{';
      assert s[k + 1] == '{';
    }
  }

  lemma {:induction false} NewItemsFailure(pieces: seq<string>, bound: nat, rec: Recognisers)
    requires forall i :: 0 <= i < |pieces| ==> |pieces[i]| < bound
    ensures NewItems(pieces, bound, rec).Err? ==> NewItems(pieces, bound, rec).error == MalformedValue
    decreases bound, 0, |pieces|
  {
    if pieces != [] {
      NewFailure(pieces[0], rec);
      NewItemsFailure(pieces[1..], bound, rec);
    }
  }

  lemma {:induction false} NewEntriesFailure(pieces: seq<string>, bound: nat, rec: Recognisers, acc: map<string, LegacyValue>)
    requires forall i :: 0 <= i < |pieces| ==> |pieces[i]| < bound
    ensures NewEntries(pieces, bound, rec, acc).Err? ==> NewEntries(pieces, bound, rec, acc).error == MalformedValue
    decreases bound, 0, |pieces|
  {
    if pieces != [] && SplitOnce(pieces[0], '=').Some? {
      var (key, text) := SplitOnce(pieces[0], '=').value;
      assert |text| < |pieces[0]|;
      NewFailure(text, rec);
      if New(text, rec).Ok? {
        NewEntriesFailure(pieces[1..], bound, rec, acc[key := New(text, rec).value]);
      }
    }
  }

  /** PluginOption::from_str of config.rs. */
  function FromStr(s: string, rec: Recognisers): Result<PluginOption, ParseError>
  {
    match SplitOnce(s, ':')
    case None => Err(NoPluginPrefix)
    case Some((plugin, option)) =>
      match SplitOnce(option, '=')
      case None => Err(NoValue)
      case Some((name, text)) =>
        var value :- New(text, rec);
        Ok(PluginOption(plugin, name, value))
  }

  /** NoPluginPrefix without ':'; NoValue without '=' after the first ':'. */
  lemma FromStrErrors(s: string, rec: Recognisers)
    ensures ':' !in s ==> FromStr(s, rec) == Err(NoPluginPrefix)
    ensures ':' in s && '=' !in SplitOnce(s, ':').value.1 ==> FromStr(s, rec) == Err(NoValue)
    ensures FromStr(s, rec).Err? && ':' in s && '=' in SplitOnce(s, ':').value.1 ==> FromStr(s, rec).error == MalformedValue
  {
    if ':' in s && '=' in SplitOnce(s, ':').value.1 {
      NewFailure(SplitOnce(SplitOnce(s, ':').value.1, '=').value.1, rec);
    }
  }

  /** `plugin:name=value` read back gives its parts. */
  lemma FromStrOfText(plugin: string, name: string, text: string, rec: Recognisers)
    requires ':' !in plugin && '=' !in name
    ensures var r := FromStr(plugin + ":" + name + "=" + text, rec);
            && (New(text, rec).Ok? ==> r == Ok(PluginOption(plugin, name, New(text, rec).value)))
            && (New(text, rec).Err? ==> r == Err(New(text, rec).error))
  {
    assert plugin + ":" + name + "=" + text == plugin + [':'] + (name + "=" + text);
    SplitOnceUnique(plugin, name + "=" + text, ':');
    assert name + "=" + text == name + ['='] + text;
    SplitOnceUnique(name, text, '=');
  }
}
