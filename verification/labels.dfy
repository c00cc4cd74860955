/**
 * `parseCloudLabels` (kops/helpers.go): turns the `cloud_labels` setting,
 * a comma-separated list of `key=value` records, into a map. Every comma
 * becomes a line break, and the CSV reader (module Csv) splits each line at
 * `=`, so a quoted key or value may itself contain `=`. A malformed record
 * fails the whole call; on a repeated key the later record wins.
 */
module Labels {
  import opened GoStrings
  import opened Csv

  /** The error `parseCloudLabels` returns: the rewritten input and the reader's complaint. */
  datatype LabelError = Malformed(records: string, cause: CsvError)

  ghost predicate AllPairs(kv: seq<Record>) {
    forall i :: 0 <= i < |kv| ==> |kv[i]| == 2
  }

  /** The map filled from the records in order, a later record overwriting an earlier one. */
  function LastWins(kv: seq<Record>): map<string, string>
    requires AllPairs(kv)
  {
    if |kv| == 0 then map[]
    else LastWins(kv[..|kv| - 1])[kv[|kv| - 1][0] := kv[|kv| - 1][1]]
  }

  /** The result of `parseCloudLabels(s)`. */
  function LabelsOf(s: string): Result<map<string, string>, LabelError> {
    var records := ReplaceAll(s, ',', '\n');
    match ReadAllSpec(records)
    case Err(e) => Err(Malformed(records, e))
    case Ok(kv) =>
      RecordsHaveTwoFields(records);
      Ok(LastWins(kv))
  }

  /** `parseCloudLabels`: rewrite commas, read all records, then fill the map record by record. */
  method ParseCloudLabels(s: string) returns (r: Result<map<string, string>, LabelError>)
    ensures r == LabelsOf(s)
  {
    var records := ReplaceAll(s, ',', '\n');
    var kvPairs := ReadAll(records);
    if kvPairs.Err? {
      return Err(Malformed(records, kvPairs.error));
    }
    var pairs := kvPairs.value;
    var m: map<string, string> := map[];
    for i := 0 to |pairs|
      invariant m == LastWins(pairs[..i])
    {
      assert pairs[..i + 1][..i] == pairs[..i];
      m := m[pairs[i][0] := pairs[i][1]];
    }
    assert pairs[..|pairs|] == pairs;
    r := Ok(m);
  }

  /** The keys of the map are exactly the first fields of the records. */
  lemma {:induction false} LastWinsKeys(kv: seq<Record>)
    requires AllPairs(kv)
    ensures LastWins(kv).Keys == set i | 0 <= i < |kv| :: kv[i][0]
  {
    if |kv| > 0 {
      var init := kv[..|kv| - 1];
      LastWinsKeys(init);
      var all, before := set i | 0 <= i < |kv| :: kv[i][0], set i | 0 <= i < |init| :: init[i][0];
      assert all == before + {kv[|kv| - 1][0]} by {
        forall k | k in all ensures k in before + {kv[|kv| - 1][0]} {
          var i :| 0 <= i < |kv| && kv[i][0] == k;
          if i < |init| { assert init[i] == kv[i]; }
        }
        forall k | k in before ensures k in all {
          var i :| 0 <= i < |init| && init[i][0] == k;
          assert kv[i] == init[i];
        }
      }
    }
  }

  /** Each key maps to the second field of the LAST record that has it as first field. */
  lemma {:induction false} LastWinsValue(kv: seq<Record>, k: string)
    requires AllPairs(kv)
    requires k in LastWins(kv)
    ensures exists i :: 0 <= i < |kv| && kv[i][0] == k && LastWins(kv)[k] == kv[i][1]
                     && forall j :: i < j < |kv| ==> kv[j][0] != k
  {
    var init := kv[..|kv| - 1];
    if kv[|kv| - 1][0] == k {
      assert LastWins(kv)[k] == kv[|kv| - 1][1];
    } else {
      LastWinsValue(init, k);
      var i :| 0 <= i < |init| && init[i][0] == k && LastWins(init)[k] == init[i][1]
               && forall j :: i < j < |init| ==> init[j][0] != k;
      assert kv[i] == init[i];
      assert forall j :: i < j < |kv| ==> kv[j][0] != k by {
        forall j | i < j < |kv| ensures kv[j][0] != k {
          if j < |init| { assert kv[j] == init[j]; }
        }
      }
    }
  }

  /** There are never more labels than records. */
  lemma {:induction false} LastWinsSize(kv: seq<Record>)
    requires AllPairs(kv)
    ensures |LastWins(kv)| <= |kv|
  {
    if |kv| > 0 {
      var init := kv[..|kv| - 1];
      LastWinsSize(init);
      var m := LastWins(init);
      var k := kv[|kv| - 1][0];
      if k in m {
        assert m[k := kv[|kv| - 1][1]].Keys == m.Keys;
      } else {
        assert m[k := kv[|kv| - 1][1]].Keys == m.Keys + {k};
      }
    }
  }

  /** A comma and a line break separate records alike: swapping one for the other changes nothing. */
  lemma CommaIsLineBreak(s: string, t: string)
    requires |s| == |t|
    requires forall i :: 0 <= i < |s| ==> s[i] == t[i] || (s[i] in {',', '\n'} && t[i] in {',', '\n'})
    ensures LabelsOf(s) == LabelsOf(t)
  {
    assert ReplaceAll(s, ',', '\n') == ReplaceAll(t, ',', '\n');
  }

  // ---------------------------------------------------------------------
  // Writing labels back: the inverse of the parser
  // ---------------------------------------------------------------------

  /** A field that reads back as itself without quotes. */
  predicate Plain(x: string) {
    && (forall i :: 0 <= i < |x| ==> x[i] != '=' && x[i] != ',' && x[i] != '\n' && x[i] != '"')
    && (|x| > 0 ==> !IsSpace(x[0]))
  }

  /** Doubles every quote, as RFC 4180 section 2 rule 7 asks inside a quoted field. */
  function Escape(x: string): string
    decreases |x|
  {
    if |x| == 0 then ""
    else Escape(x[..|x| - 1]) + (if x[|x| - 1] == '"' then "\"\"" else [x[|x| - 1]])
  }

  /** A field as written: bare when it is plain, otherwise quoted. */
  function EncodeField(x: string): string {
    if Plain(x) then x else "\"" + Escape(x) + "\""
  }

  function Entry(p: (string, string)): string {
    EncodeField(p.0) + "=" + EncodeField(p.1)
  }

  /** Labels written as `key=value` entries separated by commas. */
  function EncodeLabels(pairs: seq<(string, string)>): string
    decreases |pairs|
  {
    if |pairs| == 0 then ""
    else if |pairs| == 1 then Entry(pairs[0])
    else EncodeLabels(pairs[..|pairs| - 1]) + "," + Entry(pairs[|pairs| - 1])
  }

  /** The same entries, one per line: what the parser reads once commas are rewritten. */
  function EncodeLines(pairs: seq<(string, string)>): string
    decreases |pairs|
  {
    if |pairs| == 0 then ""
    else if |pairs| == 1 then Entry(pairs[0])
    else EncodeLines(pairs[..|pairs| - 1]) + "\n" + Entry(pairs[|pairs| - 1])
  }

  function AsRecords(pairs: seq<(string, string)>): (kv: seq<Record>)
    ensures AllPairs(kv)
  {
    seq(|pairs|, i requires 0 <= i < |pairs| => [pairs[i].0, pairs[i].1])
  }

  ghost predicate NoComma(x: string) {
    forall i :: 0 <= i < |x| ==> x[i] != ','
  }

  /**
   * No carriage return: Go's reader turns `\r\n` into `\n` and drops a `\r`
   * at the end of its input, so text with `\r` does not come back unchanged.
   */
  ghost predicate NoCarriageReturn(x: string) {
    forall i :: 0 <= i < |x| ==> x[i] != '\r'
  }

  ghost predicate Encodable(pairs: seq<(string, string)>) {
    forall i :: 0 <= i < |pairs| ==>
      && NoComma(pairs[i].0) && NoComma(pairs[i].1)
      && NoCarriageReturn(pairs[i].0) && NoCarriageReturn(pairs[i].1)
  }

  /**
   * Round trip: labels whose keys and values hold no comma and no carriage
   * return, written out with `EncodeLabels`, parse back to the map of those
   * labels, the later of two equal keys winning.
   */
  lemma LabelsRoundTrip(pairs: seq<(string, string)>)
    requires Encodable(pairs)
    ensures LabelsOf(EncodeLabels(pairs)) == Ok(LastWins(AsRecords(pairs)))
    ensures NoCarriageReturn(EncodeLabels(pairs))
  {
    EncodingHasNoCarriageReturn(pairs);
    EncodeCommasToLines(pairs);
    ReadLines(pairs);
  }

  /** The entries written one per line read back as one record each. */
  lemma ReadLines(pairs: seq<(string, string)>)
    ensures ReadAllSpec(EncodeLines(pairs)) == Ok(AsRecords(pairs))
  {
    if |pairs| == 0 {
      assert AsRecords(pairs) == [];
    } else {
      LinesRun(pairs);
      var last := pairs[|pairs| - 1];
      var p := RunFrom(Reading(Start), EncodeLines(pairs));
      FieldEndsRecord(p, last.1, last.0, AsRecords(pairs[..|pairs| - 1]));
      AsRecordsSnoc(pairs);
    }
  }

  lemma AsRecordsSnoc(pairs: seq<(string, string)>)
    requires |pairs| > 0
    ensures AsRecords(pairs[..|pairs| - 1]) + [[pairs[|pairs| - 1].0, pairs[|pairs| - 1].1]] == AsRecords(pairs)
  {
  }

  /** A line break, or the end of input, after the second field closes the record. */
  lemma FieldEndsRecord(p: Progress, x: string, k: string, records: seq<Record>)
    requires FieldRead(p, x, [k], records)
    ensures Step(p, '\n') == Reading(ReaderState(RecordStart, "", [], records + [[k, x]]))
    ensures Finish(p) == Ok(records + [[k, x]])
  {
    assert [k] + [x] == [k, x];
    if p.st.mode == FieldStart {
      assert p.st.(field := "") == p.st;
    }
  }

  lemma {:induction false} EncodeFieldHasNoComma(x: string)
    requires NoComma(x)
    ensures NoComma(EncodeField(x))
  {
    if !Plain(x) {
      EscapeHasNoComma(x);
      var e := Escape(x);
      assert ("\"" + e + "\"")[1..|e| + 1] == e;
    }
  }

  lemma {:induction false} EscapeHasNoComma(x: string)
    requires NoComma(x)
    ensures NoComma(Escape(x))
    decreases |x|
  {
    if |x| > 0 {
      EscapeHasNoComma(x[..|x| - 1]);
    }
  }

  lemma NoCarriageReturnAppend(a: string, b: string)
    requires NoCarriageReturn(a) && NoCarriageReturn(b)
    ensures NoCarriageReturn(a + b)
  {
    forall i | 0 <= i < |a + b| ensures (a + b)[i] != '\r' {
      if i < |a| { assert (a + b)[i] == a[i]; } else { assert (a + b)[i] == b[i - |a|]; }
    }
  }

  lemma {:induction false} EscapeHasNoCarriageReturn(x: string)
    requires NoCarriageReturn(x)
    ensures NoCarriageReturn(Escape(x))
    decreases |x|
  {
    if |x| > 0 {
      EscapeHasNoCarriageReturn(x[..|x| - 1]);
      NoCarriageReturnAppend(Escape(x[..|x| - 1]), if x[|x| - 1] == '"' then "\"\"" else [x[|x| - 1]]);
    }
  }

  lemma EntryHasNoCarriageReturn(p: (string, string))
    requires NoCarriageReturn(p.0) && NoCarriageReturn(p.1)
    ensures NoCarriageReturn(Entry(p))
  {
    forall x | x == p.0 || x == p.1 ensures NoCarriageReturn(EncodeField(x)) {
      if !Plain(x) {
        EscapeHasNoCarriageReturn(x);
        NoCarriageReturnAppend("\"" + Escape(x), "\"");
        NoCarriageReturnAppend("\"", Escape(x));
      }
    }
    NoCarriageReturnAppend(EncodeField(p.0), "=");
    NoCarriageReturnAppend(EncodeField(p.0) + "=", EncodeField(p.1));
  }

  /**
   * The encoded text holds no carriage return, so the `\r` handling of Go's
   * reader, which the model leaves out, never comes into play on it.
   */
  lemma {:induction false} EncodingHasNoCarriageReturn(pairs: seq<(string, string)>)
    requires Encodable(pairs)
    ensures NoCarriageReturn(EncodeLabels(pairs))
    decreases |pairs|
  {
    if |pairs| == 1 {
      EntryHasNoCarriageReturn(pairs[0]);
    } else if |pairs| > 1 {
      var init := pairs[..|pairs| - 1];
      EncodingHasNoCarriageReturn(init);
      EntryHasNoCarriageReturn(pairs[|pairs| - 1]);
      NoCarriageReturnAppend(EncodeLabels(init), ",");
      NoCarriageReturnAppend(EncodeLabels(init) + ",", Entry(pairs[|pairs| - 1]));
    }
  }

  lemma {:induction false} ReplaceEntry(p: (string, string))
    requires NoComma(p.0) && NoComma(p.1)
    ensures ReplaceAll(Entry(p), ',', '\n') == Entry(p)
  {
    EncodeFieldHasNoComma(p.0);
    EncodeFieldHasNoComma(p.1);
    var e := Entry(p);
    var a, b := EncodeField(p.0), EncodeField(p.1);
    forall i | 0 <= i < |e| ensures e[i] != ',' {
      if i < |a| { assert e[i] == a[i]; }
      else if i == |a| { assert e[i] == '='; }
      else { assert e[i] == b[i - |a| - 1]; }
    }
  }

  lemma {:induction false} EncodeCommasToLines(pairs: seq<(string, string)>)
    requires Encodable(pairs)
    ensures ReplaceAll(EncodeLabels(pairs), ',', '\n') == EncodeLines(pairs)
    decreases |pairs|
  {
    if |pairs| == 1 {
      ReplaceEntry(pairs[0]);
    } else if |pairs| > 1 {
      var init := pairs[..|pairs| - 1];
      EncodeCommasToLines(init);
      ReplaceEntry(pairs[|pairs| - 1]);
      ReplaceAllAppend(EncodeLabels(init) + ",", Entry(pairs[|pairs| - 1]), ',', '\n');
      ReplaceAllAppend(EncodeLabels(init), ",", ',', '\n');
    }
  }

  /** The reader has just finished reading field `x`, and sees `fields` and `records` before it. */
  ghost predicate FieldRead(p: Progress, x: string, fields: Record, records: seq<Record>) {
    && p.Reading?
    && p.st.field == x && p.st.fields == fields && p.st.records == records
    && (p.st.mode == Unquoted || p.st.mode == QuoteSeen || (x == "" && p.st.mode == FieldStart))
  }

  lemma {:induction false} StepOne(p: Progress, c: char)
    ensures RunFrom(p, [c]) == Step(p, c)
  {
    assert [c][..0] == [];
  }

  /** Inside an unquoted field, characters other than `=`, a line break and a quote are kept. */
  lemma {:induction false} UnquotedRun(st: ReaderState, x: string)
    requires st.mode == Unquoted
    requires forall i :: 0 <= i < |x| ==> x[i] != '=' && x[i] != '\n' && x[i] != '"'
    ensures RunFrom(Reading(st), x) == Reading(st.(field := st.field + x))
    decreases |x|
  {
    if |x| > 0 {
      UnquotedRun(st, x[..|x| - 1]);
      assert x[..|x| - 1] + [x[|x| - 1]] == x;
    } else {
      assert st.field + x == st.field;
    }
  }

  /** Inside a quoted field, an escaped text reads back as the text itself. */
  lemma {:induction false} EscapedRun(st: ReaderState, x: string)
    requires st.mode == Quoted
    ensures RunFrom(Reading(st), Escape(x)) == Reading(st.(field := st.field + x))
    decreases |x|
  {
    if |x| == 0 {
      assert st.field + x == st.field;
    } else {
      var init, c := x[..|x| - 1], x[|x| - 1];
      EscapedRun(st, init);
      var mid := st.(field := st.field + init);
      assert st.field + init + [c] == st.field + x;
      if c == '"' {
        RunFromAppend(Reading(st), Escape(init), "\"\"");
        RunFromAppend(Reading(mid), "\"", "\"");
        StepOne(Reading(mid), '"');
        StepOne(Reading(mid.(mode := QuoteSeen)), '"');
      } else {
        RunFromAppend(Reading(st), Escape(init), [c]);
        StepOne(Reading(mid), c);
      }
    }
  }

  /** Escaping leaves a text without quotes unchanged. */
  lemma {:induction false} EscapeWithoutQuotes(x: string)
    requires forall i :: 0 <= i < |x| ==> x[i] != '"'
    ensures Escape(x) == x
    decreases |x|
  {
    if |x| > 0 {
      EscapeWithoutQuotes(x[..|x| - 1]);
      assert x[..|x| - 1] + [x[|x| - 1]] == x;
    }
  }

  /** Reading an encoded field from the start of a field leaves that field finished. */
  lemma {:induction false} EncodedFieldRun(st: ReaderState, x: string)
    requires st.mode == FieldStart && st.field == ""
    ensures FieldRead(RunFrom(Reading(st), EncodeField(x)), x, st.fields, st.records)
  {
    if Plain(x) {
      if |x| == 0 {
        assert RunFrom(Reading(st), x) == Reading(st);
      } else {
        StartedFieldRun(st, x);
      }
    } else {
      var q := st.(mode := Quoted, field := "");
      RunFromAppend(Reading(st), "\"", Escape(x));
      StepOne(Reading(st), '"');
      EscapedRun(q, x);
      RunFromAppend(Reading(st), "\"" + Escape(x), "\"");
      StepOne(Reading(q.(field := x)), '"');
      assert "" + x == x;
    }
  }

  /** A non-empty plain field, read from the start of a field or of a record. */
  lemma {:induction false} StartedFieldRun(st: ReaderState, x: string)
    requires st.mode == FieldStart || st.mode == RecordStart
    requires Plain(x) && |x| > 0
    ensures RunFrom(Reading(st), x) == Reading(st.(mode := Unquoted, field := x))
  {
    var u := st.(mode := Unquoted, field := [x[0]]);
    RunFromAppend(Reading(st), [x[0]], x[1..]);
    assert [x[0]] + x[1..] == x;
    StepOne(Reading(st), x[0]);
    UnquotedRun(u, x[1..]);
  }

  /** One entry read from the start of a record. */
  lemma {:induction false} EntryRun(records: seq<Record>, p: (string, string))
    ensures FieldRead(RunFrom(Reading(ReaderState(RecordStart, "", [], records)), Entry(p)), p.1, [p.0], records)
  {
    var st := ReaderState(RecordStart, "", [], records);
    var k := EncodeField(p.0);
    // the key
    var afterKey := RunFrom(Reading(st), k);
    if Plain(p.0) && |p.0| == 0 {
      assert afterKey == Reading(st);
    } else if Plain(p.0) {
      StartedFieldRun(st, p.0);
    } else {
      var f := st.(mode := FieldStart);
      assert Step(Reading(st), '"') == Step(Reading(f), '"');
      RunFromAppend(Reading(st), [k[0]], k[1..]);
      RunFromAppend(Reading(f), [k[0]], k[1..]);
      assert [k[0]] + k[1..] == k;
      StepOne(Reading(st), k[0]);
      StepOne(Reading(f), k[0]);
      EncodedFieldRun(f, p.0);
    }
    // the separator
    var afterEq := ReaderState(FieldStart, "", [p.0], records);
    RunFromAppend(Reading(st), k, "=");
    StepOne(afterKey, '=');
    assert RunFrom(Reading(st), k + "=") == Reading(afterEq);
    // the value
    EncodedFieldRun(afterEq, p.1);
    RunFromAppend(Reading(st), k + "=", EncodeField(p.1));
  }

  /** The whole text, line after line: every entry but the last is a finished record. */
  lemma {:induction false} LinesRun(pairs: seq<(string, string)>)
    requires |pairs| > 0
    ensures FieldRead(RunFrom(Reading(Start), EncodeLines(pairs)), pairs[|pairs| - 1].1,
                      [pairs[|pairs| - 1].0], AsRecords(pairs[..|pairs| - 1]))
    decreases |pairs|
  {
    var last := pairs[|pairs| - 1];
    var init := pairs[..|pairs| - 1];
    if |pairs| == 1 {
      assert AsRecords(init) == [];
      EntryRun([], last);
    } else {
      LinesRun(init);
      var prev := init[|init| - 1];
      var p := RunFrom(Reading(Start), EncodeLines(init));
      AsRecordsSnoc(init);
      var recs := AsRecords(init);
      FieldEndsRecord(p, prev.1, prev.0, AsRecords(init[..|init| - 1]));
      RunFromAppend(Reading(Start), EncodeLines(init), "\n");
      StepOne(p, '\n');
      EntryRun(recs, last);
      RunFromAppend(Reading(Start), EncodeLines(init) + "\n", Entry(last));
      assert EncodeLines(pairs) == EncodeLines(init) + "\n" + Entry(last);
    }
  }

  // ---------------------------------------------------------------------
  // Examples from the function's own documentation and its callers
  // ---------------------------------------------------------------------

  /** `"a=1,b=2"` parses to `{a: "1", b: "2"}`. */
  lemma TwoLabels()
    ensures LabelsOf("a=1,b=2") == Ok(map["a" := "1", "b" := "2"])
  {
    var pairs := [("a", "1"), ("b", "2")];
    assert Plain("a") && Plain("1") && Plain("b") && Plain("2");
    assert EncodeLabels(pairs[..1]) == "a=1";
    assert EncodeLabels(pairs) == "a=1,b=2";
    LabelsRoundTrip(pairs);
    var kv := AsRecords(pairs);
    assert kv == [["a", "1"], ["b", "2"]];
    assert kv[..1] == [["a", "1"]] && kv[..1][..0] == [];
    assert LastWins(kv[..1]) == map["a" := "1"];
  }

  /** A quoted value may hold `=`: `foo="bar=baz"` parses to `{foo: "bar=baz"}`. */
  lemma QuotedValue()
    ensures LabelsOf("foo=\"bar=baz\"") == Ok(map["foo" := "bar=baz"])
  {
    var pairs := [("foo", "bar=baz")];
    assert Plain("foo");
    assert !Plain("bar=baz") by { assert "bar=baz"[3] == '='; }
    EscapeWithoutQuotes("bar=baz");
    assert EncodeLabels(pairs) == "foo=\"bar=baz\"";
    LabelsRoundTrip(pairs);
    assert AsRecords(pairs) == [["foo", "bar=baz"]];
  }

  /** The empty setting gives no labels and no error. */
  lemma NoLabels()
    ensures LabelsOf("") == Ok(map[])
  {
    LabelsRoundTrip([]);
  }

  /** A record without `=` fails the whole call: `"a=1,b"`. */
  lemma MissingValue()
    ensures LabelsOf("a=1,b") == Err(Malformed("a=1\nb", FieldCount))
  {
    assert ReplaceAll("a=1,b", ',', '\n') == "a=1\nb";
    var s4 := Reading(ReaderState(RecordStart, "", [], [["a", "1"]]));
    var s5 := Reading(ReaderState(Unquoted, "b", [], [["a", "1"]]));
    FirstRecordRun();
    assert RunFrom(s4, "b") == s5 by {
      assert Step(s4, 'b') == s5;
      RunForward(s4, "b");
    }
    assert "a=1\nb" == "a=1\n" + "b";
    RunFromAppend(Reading(Start), "a=1\n", "b");
  }

  /** The reader after the record `a=1` and its line break. */
  lemma FirstRecordRun()
    ensures RunFrom(Reading(Start), "a=1\n") == Reading(ReaderState(RecordStart, "", [], [["a", "1"]]))
  {
    var s0 := Reading(Start);
    var s1 := Reading(ReaderState(Unquoted, "a", [], []));
    var s2 := Reading(ReaderState(FieldStart, "", ["a"], []));
    var s3 := Reading(ReaderState(Unquoted, "1", ["a"], []));
    var s4 := Reading(ReaderState(RecordStart, "", [], [["a", "1"]]));
    assert Step(s0, 'a') == s1 && Step(s1, '=') == s2 && Step(s2, '1') == s3;
    assert Step(s3, '\n') == s4 by {
      assert ["a"] + ["1"] == ["a", "1"];
      assert [] + [["a", "1"]] == [["a", "1"]];
    }
    RunForward(s0, "a=1\n");
  }

  /** Two `=` outside quotes make three fields, which fails: `"a=1=2"`. */
  lemma TooManyFields()
    ensures LabelsOf("a=1=2") == Err(Malformed("a=1=2", FieldCount))
  {
    assert ReplaceAll("a=1=2", ',', '\n') == "a=1=2";
    var s0 := Reading(Start);
    var s3 := Reading(ReaderState(Unquoted, "1", ["a"], []));
    var s4 := Reading(ReaderState(FieldStart, "", ["a", "1"], []));
    var s5 := Reading(ReaderState(Unquoted, "2", ["a", "1"], []));
    assert RunFrom(s0, "a=1") == s3 by {
      var s1 := Reading(ReaderState(Unquoted, "a", [], []));
      var s2 := Reading(ReaderState(FieldStart, "", ["a"], []));
      assert Step(s0, 'a') == s1 && Step(s1, '=') == s2 && Step(s2, '1') == s3;
      RunForward(s0, "a=1");
    }
    assert RunFrom(s3, "=2") == s5 by {
      assert Step(s3, '=') == s4 && Step(s4, '2') == s5;
      RunForward(s3, "=2");
    }
    assert "a=1=2" == "a=1" + "=2";
    RunFromAppend(s0, "a=1", "=2");
  }

  /** A quote inside an unquoted field is an error: `a=b"c`. */
  lemma BareQuoteFails()
    ensures LabelsOf("a=b\"c") == Err(Malformed("a=b\"c", BareQuote))
  {
    assert ReplaceAll("a=b\"c", ',', '\n') == "a=b\"c";
    var s0 := Reading(Start);
    var s3 := Reading(ReaderState(Unquoted, "b", ["a"], []));
    assert RunFrom(s0, "a=b") == s3 by {
      var s1 := Reading(ReaderState(Unquoted, "a", [], []));
      var s2 := Reading(ReaderState(FieldStart, "", ["a"], []));
      assert Step(s0, 'a') == s1 && Step(s1, '=') == s2 && Step(s2, 'b') == s3;
      RunForward(s0, "a=b");
    }
    assert RunFrom(s3, "\"c") == Failed(BareQuote) by {
      assert Step(s3, '"') == Failed(BareQuote);
      RunForward(s3, "\"c");
    }
    assert "a=b\"c" == "a=b" + "\"c";
    RunFromAppend(s0, "a=b", "\"c");
  }

  /** White space at the start of a key or a value is dropped: `" a= 1"`. */
  lemma LeadingSpaceTrimmed()
    ensures LabelsOf(" a= 1") == Ok(map["a" := "1"])
  {
    assert ReplaceAll(" a= 1", ',', '\n') == " a= 1";
    var s0 := Reading(Start);
    var s1 := Reading(ReaderState(FieldStart, "", [], []));
    var s2 := Reading(ReaderState(Unquoted, "a", [], []));
    var s3 := Reading(ReaderState(FieldStart, "", ["a"], []));
    var s5 := Reading(ReaderState(Unquoted, "1", ["a"], []));
    assert Step(s0, ' ') == s1 && Step(s1, 'a') == s2 && Step(s2, '=') == s3;
    assert Step(s3, ' ') == s3 && Step(s3, '1') == s5;
    RunForward(s0, " a= 1");
    assert Forward(s0, " a= 1") == s5;
  }

  /** A comma inside quotes still becomes a line break: `a="x,y"` gives the value `"x\ny"`. */
  lemma CommaInQuotes()
    ensures LabelsOf("a=\"x,y\"") == Ok(map["a" := "x\ny"])
  {
    assert ReplaceAll("a=\"x,y\"", ',', '\n') == "a=\"x\ny\"";
    QuotedLineBreakRun();
  }

  /** The reader keeps the line break inside the quotes as part of the value. */
  lemma QuotedLineBreakRun()
    ensures RunFrom(Reading(Start), "a=\"x\ny\"") == Reading(ReaderState(QuoteSeen, "x\ny", ["a"], []))
  {
    var s0 := Reading(Start);
    var s3 := Reading(ReaderState(Quoted, "", ["a"], []));
    var s7 := Reading(ReaderState(QuoteSeen, "x\ny", ["a"], []));
    OpenQuoteRun();
    QuotedValueRun();
    assert "a=\"x\ny\"" == "a=\"" + "x\ny\"";
    RunFromAppend(s0, "a=\"", "x\ny\"");
  }

  lemma OpenQuoteRun()
    ensures RunFrom(Reading(Start), "a=\"") == Reading(ReaderState(Quoted, "", ["a"], []))
  {
    var s0 := Reading(Start);
    var s1 := Reading(ReaderState(Unquoted, "a", [], []));
    var s2 := Reading(ReaderState(FieldStart, "", ["a"], []));
    var s3 := Reading(ReaderState(Quoted, "", ["a"], []));
    assert Step(s0, 'a') == s1 && Step(s1, '=') == s2 && Step(s2, '"') == s3;
    RunForward(s0, "a=\"");
  }

  lemma QuotedValueRun()
    ensures RunFrom(Reading(ReaderState(Quoted, "", ["a"], [])), "x\ny\"") == Reading(ReaderState(QuoteSeen, "x\ny", ["a"], []))
  {
    var s3 := Reading(ReaderState(Quoted, "", ["a"], []));
    var s4 := Reading(ReaderState(Quoted, "x", ["a"], []));
    var s5 := Reading(ReaderState(Quoted, "x\n", ["a"], []));
    var s6 := Reading(ReaderState(Quoted, "x\ny", ["a"], []));
    var s7 := Reading(ReaderState(QuoteSeen, "x\ny", ["a"], []));
    assert Step(s3, 'x') == s4 && Step(s4, '\n') == s5 && Step(s5, 'y') == s6 && Step(s6, '"') == s7;
    RunForward(s3, "x\ny\"");
  }
}
