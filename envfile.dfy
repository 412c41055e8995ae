/**
 * The `.env` settings file: `load_env_file` reads `KEY=VALUE` lines into a
 * dictionary, `write_env_file` writes a dictionary back, one line per entry
 * in sorted key order.
 */
module EnvFile {
  import opened Wrappers
  import opened Text
  import opened Paths

  type Settings = map<string, string>

  // ---------------------------------------------------------------------------
  // Reading
  // ---------------------------------------------------------------------------

  /** The entry one line of the file contributes: `None` for a blank line, a
      `#` comment or a line without `=`; otherwise the stripped text before
      the first `=` and the stripped text after it. */
  function LineEntry(raw: string): (e: Option<(string, string)>)
    ensures e.None? <==> (Strip(raw) == [] || Strip(raw)[0] == '#' || '=' !in Strip(raw))
    ensures e.Some? ==> '=' !in e.value.0 && Trimmed(e.value.0) && Trimmed(e.value.1)
  {
    var line := Strip(raw);
    if line == [] || line[0] == '#' then None
    else
      var i := IndexOf(line, '=');
      if i == |line| then None
      else
        var key := Strip(line[..i]);
        assert '=' !in key by {
          if '=' in key { StripKeeps(line[..i], '='); }
        }
        Some((key, Strip(line[i + 1..])))
  }

  /** An entry is the stripped text before the first `=` of the stripped
      line and the stripped text after it. */
  lemma LineEntrySplit(raw: string)
    ensures var e := LineEntry(raw);
            e.Some? ==> exists a, b :: Strip(raw) == a + "=" + b && '=' !in a && e.value == (Strip(a), Strip(b))
  {
    if LineEntry(raw).Some? {
      var line := Strip(raw);
      var i := IndexOf(line, '=');
      assert LineEntry(raw).value == (Strip(line[..i]), Strip(line[i + 1..]));
      SplitAtFirst(line, i, LineEntry(raw).value);
    }
  }

  lemma SplitAtFirst(line: string, i: nat, kv: (string, string))
    requires i < |line| && line[i] == '=' && forall k :: 0 <= k < i ==> line[k] != '='
    requires kv == (Strip(line[..i]), Strip(line[i + 1..]))
    ensures exists a, b :: line == a + "=" + b && '=' !in a && kv == (Strip(a), Strip(b))
  {
    var a, b := line[..i], line[i + 1..];
    assert line == a + "=" + b;
  }

  /** One line's effect on the dictionary being filled. */
  function Apply(data: Settings, e: Option<(string, string)>): Settings {
    match e
    case None => data
    case Some((k, v)) => data[k := v]
  }

  /** The dictionary a sequence of line entries builds, in order, each entry
      overwriting an earlier one with the same key. */
  function Fold(es: seq<Option<(string, string)>>): Settings {
    if es == [] then map[] else Apply(Fold(es[..|es| - 1]), es[|es| - 1])
  }

  /** The entry of every line. */
  function Entries(lines: seq<string>): (es: seq<Option<(string, string)>>)
    ensures |es| == |lines|
    ensures forall i :: 0 <= i < |lines| ==> es[i] == LineEntry(lines[i])
  {
    seq(|lines|, i requires 0 <= i < |lines| => LineEntry(lines[i]))
  }

  /** The dictionary the lines of a settings file build. */
  function ParseLines(lines: seq<string>): Settings {
    Fold(Entries(lines))
  }

  /** The dictionary the text of a settings file gives. */
  function ParseEnv(text: string): Settings {
    ParseLines(SplitLines(text))
  }

  /** `load_env_file(path)` over a file system given as a map. */
  function LoadEnv(files: map<Path, string>, path: Path): (data: Settings)
    ensures path !in files ==> data == map[]
  {
    if path in files then ParseEnv(files[path]) else map[]
  }

  /** `load_env_file`: fill the dictionary line by line. */
  method LoadEnvFile(files: map<Path, string>, path: Path) returns (data: Settings)
    ensures data == LoadEnv(files, path)
  {
    if path !in files {
      return map[];
    }
    var lines := SplitLines(files[path]);
    ghost var es := Entries(lines);
    data := map[];
    var n := 0;
    while n < |lines|
      invariant 0 <= n <= |lines|
      invariant data == Fold(es[..n])
    {
      assert es[..n + 1][..n] == es[..n];
      match LineEntry(lines[n]) {
        case None =>
        case Some((key, value)) =>
          data := data[key := value];
      }
      n := n + 1;
    }
    assert es[..n] == es;
  }

  /** Entry `e` sets key `k`. */
  predicate Sets(e: Option<(string, string)>, k: string) {
    e.Some? && e.value.0 == k
  }

  /** A key is in the dictionary exactly when some entry sets it. */
  lemma {:induction false} FoldKeys(es: seq<Option<(string, string)>>, k: string)
    ensures k in Fold(es) <==> exists i :: 0 <= i < |es| && Sets(es[i], k)
  {
    if es != [] {
      var init := es[..|es| - 1];
      FoldKeys(init, k);
      if exists i :: 0 <= i < |init| && Sets(init[i], k) {
        var i :| 0 <= i < |init| && Sets(init[i], k);
        assert Sets(es[i], k);
      }
      if exists i :: 0 <= i < |es| && Sets(es[i], k) {
        var i :| 0 <= i < |es| && Sets(es[i], k);
        if i < |init| { assert Sets(init[i], k); }
      }
    }
  }

  /** The value in the dictionary is the one of the last entry for that key. */
  lemma {:induction false} FoldLastWins(es: seq<Option<(string, string)>>, i: nat, k: string, v: string)
    requires i < |es| && es[i] == Some((k, v))
    requires forall j :: i < j < |es| ==> !Sets(es[j], k)
    ensures k in Fold(es) && Fold(es)[k] == v
  {
    var init := es[..|es| - 1];
    if i < |es| - 1 {
      assert !Sets(es[|es| - 1], k);
      forall j | i < j < |init| ensures !Sets(init[j], k) {
        assert init[j] == es[j];
      }
      FoldLastWins(init, i, k, v);
    }
  }

  /** A key is loaded exactly when some line of the file sets it. */
  lemma ParsedKeys(lines: seq<string>, k: string)
    ensures k in ParseLines(lines) <==> exists i :: 0 <= i < |lines| && Sets(LineEntry(lines[i]), k)
  {
    var es := Entries(lines);
    FoldKeys(es, k);
    if exists i :: 0 <= i < |es| && Sets(es[i], k) {
      var i :| 0 <= i < |es| && Sets(es[i], k);
      assert Sets(LineEntry(lines[i]), k);
    }
  }

  /** The value loaded for a key is the one on the last line that sets it. */
  lemma LastLineWins(lines: seq<string>, i: nat, k: string, v: string)
    requires i < |lines| && LineEntry(lines[i]) == Some((k, v))
    requires forall j :: i < j < |lines| ==> !Sets(LineEntry(lines[j]), k)
    ensures k in ParseLines(lines) && ParseLines(lines)[k] == v
  {
    FoldLastWins(Entries(lines), i, k, v);
  }

  // ---------------------------------------------------------------------------
  // Writing
  // ---------------------------------------------------------------------------

  /** The `key=value` line for one entry. */
  function EntryLine(k: string, v: string): string {
    k + "=" + v
  }

  /** The lines for the keys `ks`, in that order. */
  function LinesFor(ks: seq<string>, values: Settings): (lines: seq<string>)
    requires forall i :: 0 <= i < |ks| ==> ks[i] in values
    ensures |lines| == |ks|
  {
    seq(|ks|, i requires 0 <= i < |ks| => EntryLine(ks[i], values[ks[i]]))
  }

  /** The lines `write_env_file` emits: one per entry, keys ascending. */
  function EntryLines(values: Settings): (lines: seq<string>)
    ensures |lines| == |values|
    ensures forall i :: 0 <= i < |lines| ==>
              var k := SortedKeys(values.Keys)[i]; k in values && lines[i] == EntryLine(k, values[k])
  {
    var ks := SortedKeys(values.Keys);
    LinesFor(ks, values)
  }

  /** The text `write_env_file` writes: the lines joined by newlines, with a
      single trailing newline. */
  function Serialize(values: Settings): (text: string)
    ensures text != [] && text[|text| - 1] == '\n'
  {
    Join(EntryLines(values), "\n") + "\n"
  }

  // ---------------------------------------------------------------------------
  // Round trip
  // ---------------------------------------------------------------------------

  /** A key that survives a write and a read: no line boundary, no
      surrounding whitespace, no `=`, and not the start of a comment. */
  predicate ValidKey(k: string) {
    NoBreaks(k) && Trimmed(k) && '=' !in k && !(k != [] && k[0] == '#')
  }

  /** A value that survives a write and a read. */
  predicate ValidValue(v: string) {
    NoBreaks(v) && Trimmed(v)
  }

  predicate Writable(values: Settings) {
    forall k :: k in values ==> ValidKey(k) && ValidValue(values[k])
  }

  /** The entry of a line that `strip()` leaves as it is, whose first `=`
      is at `i`, is the stripped text on either side of that `=`. */
  lemma LineEntryAt(raw: string, i: nat, key: string, value: string)
    requires Strip(raw) == raw && raw != [] && raw[0] != '#'
    requires i < |raw| && IndexOf(raw, '=') == i
    requires Strip(raw[..i]) == key && Strip(raw[i + 1..]) == value
    ensures LineEntry(raw) == Some((key, value))
  {
  }

  lemma EntryLineParts(k: string, v: string)
    ensures var line := EntryLine(k, v);
            |line| == |k| + 1 + |v| && line[..|k|] == k && line[|k|] == '=' && line[|k| + 1..] == v
            && line == k + ['='] + v
  {
  }

  /** What `load_env_file` relies on in a written line: nothing to strip,
      no comment marker, and the first `=` right after the key. */
  lemma EntryLineShape(k: string, v: string)
    requires ValidKey(k) && ValidValue(v)
    ensures var line := EntryLine(k, v);
            Strip(line) == line && line != [] && line[0] != '#' && IndexOf(line, '=') == |k|
            && line[..|k|] == k && line[|k| + 1..] == v
  {
    var line := EntryLine(k, v);
    EntryLineParts(k, v);
    assert line[0] != '#' && !IsSpace(line[0]) by {
      if k != [] { assert line[0] == k[0]; }
    }
    assert !IsSpace(line[|line| - 1]) by {
      if v != [] { assert line[|line| - 1] == v[|v| - 1]; }
    }
    StripFixesTrimmed(line);
    IndexOfAfter(k, '=', v);
  }

  /** A line of that shape reads back as the key and value it was made of. */
  lemma ShapedLineReadsBack(k: string, v: string)
    requires Trimmed(k) && Trimmed(v)
    requires var line := EntryLine(k, v);
             Strip(line) == line && line != [] && line[0] != '#' && IndexOf(line, '=') == |k|
             && line[..|k|] == k && line[|k| + 1..] == v
    ensures LineEntry(EntryLine(k, v)) == Some((k, v))
  {
    StripFixesTrimmed(k);
    StripFixesTrimmed(v);
    LineEntryAt(EntryLine(k, v), |k|, k, v);
  }

  /** A written line reads back as the entry it was written from. */
  lemma EntryLineReadsBack(k: string, v: string)
    requires ValidKey(k) && ValidValue(v)
    ensures LineEntry(EntryLine(k, v)) == Some((k, v))
  {
    EntryLineShape(k, v);
    ShapedLineReadsBack(k, v);
  }

  /** Entries for distinct or repeated keys, each with that key's value,
      build the dictionary restricted to those keys. */
  lemma {:induction false} FoldOfEntries(es: seq<Option<(string, string)>>, ks: seq<string>, values: Settings)
    requires |es| == |ks|
    requires forall i :: 0 <= i < |ks| ==> ks[i] in values && es[i] == Some((ks[i], values[ks[i]]))
    ensures Fold(es) == map k | k in ks :: values[k]
  {
    if es != [] {
      var n := |es| - 1;
      FoldOfEntries(es[..n], ks[..n], values);
      assert (map k | k in ks :: values[k]) == (map k | k in ks[..n] :: values[k])[ks[n] := values[ks[n]]];
    }
  }

  lemma LinesForReadBack(ks: seq<string>, values: Settings)
    requires forall i :: 0 <= i < |ks| ==> ks[i] in values
    requires Writable(values)
    ensures ParseLines(LinesFor(ks, values)) == map k | k in ks :: values[k]
  {
    var es := Entries(LinesFor(ks, values));
    forall i | 0 <= i < |ks| ensures es[i] == Some((ks[i], values[ks[i]])) {
      EntryLineReadsBack(ks[i], values[ks[i]]);
    }
    FoldOfEntries(es, ks, values);
  }

  lemma EntryLineNoBreaks(k: string, v: string)
    requires NoBreaks(k) && NoBreaks(v)
    ensures NoBreaks(EntryLine(k, v))
  {
    var line := EntryLine(k, v);
    EntryLineParts(k, v);
    forall j | 0 <= j < |line| ensures !IsLineBreak(line[j]) {
      if j < |k| { assert line[j] == k[j]; }
      else if j > |k| { assert line[j] == v[j - |k| - 1]; }
    }
  }

  /** No written line holds a line boundary. */
  lemma EntryLinesNoBreaks(values: Settings)
    requires Writable(values)
    ensures forall i :: 0 <= i < |EntryLines(values)| ==> NoBreaks(EntryLines(values)[i])
  {
    var ks := SortedKeys(values.Keys);
    var lines := EntryLines(values);
    forall i | 0 <= i < |lines| ensures NoBreaks(lines[i]) {
      EntryLineNoBreaks(ks[i], values[ks[i]]);
    }
  }

  /** An empty dictionary is written as a lone newline, which reads back empty. */
  lemma EmptyRoundTrip()
    ensures ParseEnv(Serialize(map[])) == map[]
  {
    assert EntryLines(map[]) == [];
    assert Serialize(map[]) == "\n";
    assert FirstBreak("\n") == 0;
    assert SplitLines("\n") == [""];
    assert LineEntry("") == None;
    assert Entries([""]) == [None];
    assert Fold([None]) == Apply(Fold([]), None);
  }

  lemma SortedKeysCover(values: Settings)
    ensures (map k | k in SortedKeys(values.Keys) :: values[k]) == values
  {
  }

  /** Reading what `write_env_file` wrote gives back the dictionary it was given. */
  lemma RoundTrip(values: Settings)
    requires Writable(values)
    ensures ParseEnv(Serialize(values)) == values
  {
    if values == map[] {
      EmptyRoundTrip();
    } else {
      EntryLinesNoBreaks(values);
      SplitJoinedLines(EntryLines(values));
      LinesForReadBack(SortedKeys(values.Keys), values);
      SortedKeysCover(values);
    }
  }

  lemma NoBreaksOfStrip(s: string)
    requires NoBreaks(s)
    ensures NoBreaks(Strip(s))
  {
    var r := Strip(s);
    forall k | 0 <= k < |r| ensures !IsLineBreak(r[k]) {
      StripKeeps(s, r[k]);
    }
  }

  /** Every entry a line of a file yields can be written back. */
  lemma LineEntryWritable(raw: string)
    requires NoBreaks(raw)
    ensures LineEntry(raw).Some? ==> ValidKey(LineEntry(raw).value.0) && ValidValue(LineEntry(raw).value.1)
  {
    var line := Strip(raw);
    if LineEntry(raw).Some? {
      NoBreaksOfStrip(raw);
      var i := IndexOf(line, '=');
      assert NoBreaks(line[..i]) && NoBreaks(line[i + 1..]);
      NoBreaksOfStrip(line[..i]);
      NoBreaksOfStrip(line[i + 1..]);
      if i > 0 {
        StripKeepsFirst(line[..i]);
      }
    }
  }

  lemma {:induction false} FoldWritable(es: seq<Option<(string, string)>>)
    requires forall i :: 0 <= i < |es| && es[i].Some? ==> ValidKey(es[i].value.0) && ValidValue(es[i].value.1)
    ensures Writable(Fold(es))
  {
    if es != [] {
      FoldWritable(es[..|es| - 1]);
    }
  }

  /** Every dictionary read from lines can be written back. */
  lemma ParsedWritable(lines: seq<string>)
    requires forall i :: 0 <= i < |lines| ==> NoBreaks(lines[i])
    ensures Writable(ParseLines(lines))
  {
    var es := Entries(lines);
    forall i | 0 <= i < |es| && es[i].Some? ensures ValidKey(es[i].value.0) && ValidValue(es[i].value.1) {
      LineEntryWritable(lines[i]);
    }
    FoldWritable(es);
  }

  /** Load, write, load again: the second load equals the first. */
  lemma LoadWriteLoad(text: string)
    ensures ParseEnv(Serialize(ParseEnv(text))) == ParseEnv(text)
  {
    ParsedWritable(SplitLines(text));
    RoundTrip(ParseEnv(text));
  }
}
