/**
 * The part of Go's `encoding/csv` reader that `parseCloudLabels` configures:
 * `Comma = '='`, `FieldsPerRecord = 2`, `LazyQuotes = false` and
 * `TrimLeadingSpace = true`, reading the whole input with `ReadAll`.
 *
 * The reader is written as a character-by-character state machine. Its
 * rules are those of RFC 4180 section 2 (a field may be enclosed in double
 * quotes, a quoted field may hold the separator and line breaks, and a
 * double quote inside it is written twice) plus Go's own: empty lines are
 * skipped, white space at the start of a field is dropped, a double quote
 * inside an unquoted field is an error, and every record must have exactly
 * `FieldsPerRecord` fields.
 */
module Csv {
  import opened GoStrings

  /** The reader's failures: `ErrBareQuote`, `ErrQuote` and `ErrFieldCount`. */
  datatype CsvError = BareQuote | Quote | FieldCount

  /** Where the reader is inside the current line. */
  datatype Mode =
    | RecordStart   // before the first character of a record
    | FieldStart    // before the first character of a later field, or inside leading white space
    | Unquoted      // inside a field that did not start with a quote
    | Quoted        // inside a quoted field
    | QuoteSeen     // just after a quote that closes or escapes inside a quoted field

  type Record = seq<string>

  /** The field being read, the finished fields of the current record, and the finished records. */
  datatype ReaderState = ReaderState(mode: Mode, field: string, fields: Record, records: seq<Record>)

  datatype Progress = Reading(st: ReaderState) | Failed(err: CsvError)

  const Comma: char := '='
  const FieldsPerRecord: nat := 2

  const Start: ReaderState := ReaderState(RecordStart, "", [], [])

  /** Closes the current field; the next one starts. */
  function EndField(st: ReaderState): ReaderState {
    ReaderState(FieldStart, "", st.fields + [st.field], st.records)
  }

  /** Closes the current field and the record, which must have `FieldsPerRecord` fields. */
  function EndRecord(st: ReaderState): Progress {
    var rec := st.fields + [st.field];
    if |rec| == FieldsPerRecord then Reading(ReaderState(RecordStart, "", [], st.records + [rec]))
    else Failed(FieldCount)
  }

  /** The first character of a field after the leading white space trimmed so far. */
  function FieldStartStep(st: ReaderState, c: char): Progress {
    if c == '\n' then EndRecord(st.(field := ""))
    else if IsSpace(c) then Reading(st.(mode := FieldStart, field := ""))
    else if c == '"' then Reading(st.(mode := Quoted, field := ""))
    else if c == Comma then Reading(EndField(st.(field := "")))
    else Reading(st.(mode := Unquoted, field := [c]))
  }

  /** One character of input. A failure is final. */
  function Step(p: Progress, c: char): Progress {
    match p
    case Failed(_) => p
    case Reading(st) =>
      match st.mode
      case RecordStart => if c == '\n' then p else FieldStartStep(st, c)
      case FieldStart => FieldStartStep(st, c)
      case Unquoted =>
        if c == Comma then Reading(EndField(st))
        else if c == '\n' then EndRecord(st)
        else if c == '"' then Failed(BareQuote)
        else Reading(st.(field := st.field + [c]))
      case Quoted =>
        if c == '"' then Reading(st.(mode := QuoteSeen))
        else Reading(st.(field := st.field + [c]))
      case QuoteSeen =>
        if c == '"' then Reading(st.(mode := Quoted, field := st.field + ['"']))
        else if c == Comma then Reading(EndField(st))
        else if c == '\n' then EndRecord(st)
        else Failed(Quote)
  }

  /** The reader after the characters of `s`, from `p`. */
  function RunFrom(p: Progress, s: string): Progress
    decreases |s|
  {
    if |s| == 0 then p else Step(RunFrom(p, s[..|s| - 1]), s[|s| - 1])
  }

  /** End of input. */
  function Finish(p: Progress): Result<seq<Record>, CsvError> {
    match p
    case Failed(e) => Err(e)
    case Reading(st) =>
      match st.mode
      case RecordStart => Ok(st.records)
      case Quoted => Err(Quote)
      case _ =>
        match EndRecord(st)
        case Failed(e) => Err(e)
        case Reading(st') => Ok(st'.records)
  }

  /** What `ReadAll` returns for the input `s`. */
  function ReadAllSpec(s: string): Result<seq<Record>, CsvError> {
    Finish(RunFrom(Reading(Start), s))
  }

  /** `ReadAll`: reads the input one character at a time and stops at the first error. */
  method ReadAll(input: string) returns (r: Result<seq<Record>, CsvError>)
    ensures r == ReadAllSpec(input)
    ensures r.Ok? ==> forall i :: 0 <= i < |r.value| ==> |r.value[i]| == FieldsPerRecord
  {
    var p := Reading(Start);
    var i := 0;
    while i < |input| && p.Reading?
      invariant 0 <= i <= |input|
      invariant p == RunFrom(Reading(Start), input[..i])
    {
      assert input[..i + 1][..i] == input[..i];
      p := Step(p, input[i]);
      i := i + 1;
    }
    if p.Failed? {
      FailureIsFinal(p, input[i..]);
      RunFromAppend(Reading(Start), input[..i], input[i..]);
      assert input[..i] + input[i..] == input;
    } else {
      assert input[..i] == input;
    }
    r := Finish(p);
    RecordsHaveTwoFields(input);
  }

  /** Reading `s` and then `t` is reading `s + t`. */
  lemma {:induction false} RunFromAppend(p: Progress, s: string, t: string)
    ensures RunFrom(p, s + t) == RunFrom(RunFrom(p, s), t)
    decreases |t|
  {
    if |t| == 0 {
      assert s + t == s;
    } else {
      assert (s + t)[..|s + t| - 1] == s + t[..|t| - 1];
      assert (s + t)[|s + t| - 1] == t[|t| - 1];
      RunFromAppend(p, s, t[..|t| - 1]);
    }
  }

  /** Once the reader has failed, further input changes nothing. */
  lemma {:induction false} FailureIsFinal(p: Progress, s: string)
    requires p.Failed?
    ensures RunFrom(p, s) == p
    decreases |s|
  {
    if |s| > 0 {
      FailureIsFinal(p, s[..|s| - 1]);
    }
  }

  /** The reader run front to back; equal to `RunFrom` (see `RunForward`), and easier to unfold on a literal. */
  ghost function Forward(p: Progress, s: string): Progress
    decreases |s|
  {
    if |s| == 0 then p else Forward(Step(p, s[0]), s[1..])
  }

  lemma {:induction false} RunForward(p: Progress, s: string)
    ensures RunFrom(p, s) == Forward(p, s)
    decreases |s|
  {
    if |s| > 0 {
      RunFromAppend(p, [s[0]], s[1..]);
      assert [s[0]] + s[1..] == s;
      assert RunFrom(p, [s[0]]) == Step(p, s[0]) by {
        assert [s[0]][..0] == [];
      }
      RunForward(Step(p, s[0]), s[1..]);
    }
  }

  /** Every record the reader has finished has `FieldsPerRecord` fields. */
  ghost predicate WellFormed(p: Progress) {
    p.Reading? ==> forall i :: 0 <= i < |p.st.records| ==> |p.st.records[i]| == FieldsPerRecord
  }

  lemma {:induction false} RunKeepsWellFormed(s: string)
    ensures WellFormed(RunFrom(Reading(Start), s))
    decreases |s|
  {
    if |s| > 0 {
      RunKeepsWellFormed(s[..|s| - 1]);
    }
  }

  /** A successful read returns records of exactly two fields. */
  lemma RecordsHaveTwoFields(s: string)
    ensures ReadAllSpec(s).Ok? ==> forall i :: 0 <= i < |ReadAllSpec(s).value| ==> |ReadAllSpec(s).value[i]| == FieldsPerRecord
  {
    RunKeepsWellFormed(s);
  }
}
