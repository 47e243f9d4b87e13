/** Header and file checks of BaseBulkUploadActor: the header line against the allowed
    columns, the mandatory columns through the alias map, the line-count and empty-file
    checks, and the scan of the CSV input for its header. */
module HeaderChecks {
  import opened Wrappers
  import opened Text
  import opened BulkCommon

  /** What the CSV reader yields: the raw lines, then either end of input (failure None)
      or an exception with the given message. */
  datatype CsvInput = CsvInput(rows: seq<seq<string>>, failure: Option<string>)

  /** Exception raised by the read after the last row, or the given error at clean EOF. */
  function AtEnd(input: CsvInput, atEof: Error): Error
  {
    match input.failure
    case Some(m) => Unexpected(m)
    case None => atEof
  }

  function Fold(x: string, toLower: bool): string
  {
    if toLower then Lower(x) else x
  }

  function FoldAll(xs: seq<string>, toLower: bool): (r: seq<string>)
    ensures |r| == |xs|
    ensures forall i :: 0 <= i < |xs| ==> r[i] == Fold(xs[i], toLower)
  {
    seq(|xs|, i requires 0 <= i < |xs| => Fold(xs[i], toLower))
  }

  /** The index of the first entry of xs that is not in present. */
  function FirstAbsent(xs: seq<string>, present: set<string>): (r: Option<nat>)
    ensures r.None? <==> forall i :: 0 <= i < |xs| ==> xs[i] in present
    ensures r.Some? ==> r.value < |xs| && xs[r.value] !in present
    ensures r.Some? ==> forall k :: 0 <= k < r.value ==> xs[k] in present
  {
    if xs == [] then None
    else if xs[0] !in present then Some(0)
    else match FirstAbsent(xs[1..], present)
      case None => None
      case Some(i) => Some(i + 1)
  }

  function Elements(xs: seq<string>): (s: set<string>)
    ensures forall x :: x in s <==> x in xs
  {
    set x | x in xs
  }

  /** The verdict validateBulkUploadFields promises, stated without its order of checks. */
  predicate HeaderAccepted(header: seq<string>, allowed: seq<string>, allFieldsMandatory: bool, toLower: bool)
  {
    && |header| > 0
    && (allFieldsMandatory ==> forall i :: 0 <= i < |allowed| ==> Fold(allowed[i], toLower) in header)
    && (forall j :: 0 <= j < |header| ==> Fold(header[j], toLower) in allowed)
  }

  /** validateBulkUploadFields: an empty header first; then, when all fields are
      mandatory, the first allowed field (folded) missing from the header as written;
      then the first header entry (folded) that is not allowed. */
  function ValidateBulkUploadFields(header: seq<string>, allowed: seq<string>, allFieldsMandatory: bool, toLower: bool): (r: Check)
    ensures r.Pass? <==> HeaderAccepted(header, allowed, allFieldsMandatory, toLower)
    ensures r == Fail(EmptyHeaderLine) <==> |header| == 0
    ensures r.Fail? && r.error.MandatoryParamsMissing? ==>
      allFieldsMandatory && |header| > 0 &&
      exists i :: 0 <= i < |allowed| && r.error.field == Fold(allowed[i], toLower) && r.error.field !in header
        && forall k :: 0 <= k < i ==> Fold(allowed[k], toLower) in header
    ensures r.Fail? && r.error.InvalidColumns? ==>
      |header| > 0 && r.error.validColumns == JoinComma(allowed) &&
      (allFieldsMandatory ==> forall i :: 0 <= i < |allowed| ==> Fold(allowed[i], toLower) in header) &&
      exists j :: 0 <= j < |header| && r.error.column == Fold(header[j], toLower) && r.error.column !in allowed
        && forall k :: 0 <= k < j ==> Fold(header[k], toLower) in allowed
    ensures r.Fail? ==> r.error.EmptyHeaderLine? || r.error.MandatoryParamsMissing? || r.error.InvalidColumns?
  {
    if |header| == 0 then Fail(EmptyHeaderLine)
    else
      var missing := if allFieldsMandatory then FirstAbsent(FoldAll(allowed, toLower), Elements(header)) else None;
      if missing.Some? then Fail(MandatoryParamsMissing(Fold(allowed[missing.value], toLower)))
      else match FirstAbsent(FoldAll(header, toLower), Elements(allowed))
        case None => Pass
        case Some(j) => Fail(InvalidColumns(Fold(header[j], toLower), JoinComma(allowed)))
  }

  /** Permuting the header never changes whether it is accepted. */
  lemma HeaderVerdictIgnoresOrder(h1: seq<string>, h2: seq<string>, allowed: seq<string>, allFieldsMandatory: bool, toLower: bool)
    requires multiset(h1) == multiset(h2)
    ensures ValidateBulkUploadFields(h1, allowed, allFieldsMandatory, toLower).Pass?
        == ValidateBulkUploadFields(h2, allowed, allFieldsMandatory, toLower).Pass?
  {
    forall x ensures x in h1 <==> x in h2 {
      assert x in h1 <==> x in multiset(h1);
      assert x in h2 <==> x in multiset(h2);
    }
    assert |h1| == |multiset(h1)| == |h2|;
    if HeaderAccepted(h1, allowed, allFieldsMandatory, toLower) {
      forall j | 0 <= j < |h2| ensures Fold(h2[j], toLower) in allowed {
        assert h2[j] in h2;
        var i :| 0 <= i < |h1| && h1[i] == h2[j];
      }
    }
    if HeaderAccepted(h2, allowed, allFieldsMandatory, toLower) {
      forall j | 0 <= j < |h1| ensures Fold(h1[j], toLower) in allowed {
        assert h1[j] in h1;
        var i :| 0 <= i < |h2| && h2[i] == h1[j];
      }
    }
  }

  /** The internal names the header reaches through the alias map (lower-cased lookup);
      entries the map does not know contribute nothing. */
  function MappedNames(header: seq<string>, aliases: map<string, string>): (s: set<string>)
    ensures forall c :: c in s <==> exists h :: h in header && Lower(h) in aliases && aliases[Lower(h)] == c
  {
    set h | h in header && Lower(h) in aliases :: aliases[Lower(h)]
  }

  /** validateMandatoryColumns: every mandatory column must be among the mapped names of
      the header; otherwise the first missing one in list order is reported. */
  function ValidateMandatoryColumns(mandatory: seq<string>, header: seq<string>, aliases: map<string, string>): (r: Check)
    ensures r.Pass? <==> forall i :: 0 <= i < |mandatory| ==> mandatory[i] in MappedNames(header, aliases)
    ensures r.Fail? ==>
      exists i :: (0 <= i < |mandatory| && r.error == MandatoryParamsMissing(mandatory[i])
        && mandatory[i] !in MappedNames(header, aliases)
        && forall k :: 0 <= k < i ==> mandatory[k] in MappedNames(header, aliases))
  {
    match FirstAbsent(mandatory, MappedNames(header, aliases))
    case None => Pass
    case Some(i) => Fail(MandatoryParamsMissing(mandatory[i]))
  }

  /** validateFileSizeAgainstLineNumbers: errors exactly when the file has lines and more
      of them than allowed, reporting maxLines - 1 in Java int arithmetic. */
  function ValidateFileSizeAgainstLineNumbers(maxLines: int, actualLines: int): (r: Check)
    requires IsInt32(maxLines) && IsInt32(actualLines)
    ensures r.Fail? <==> actualLines > 0 && actualLines > maxLines
    ensures r.Fail? ==> r.error == DataSizeError(Wrap32(maxLines - 1))
    ensures r.Fail? && maxLines > MIN_INT ==> r.error == DataSizeError(maxLines - 1)
  {
    if actualLines > 0 && actualLines > maxLines then Fail(DataSizeError(Wrap32(maxLines - 1))) else Pass
  }

  /** validateEmptyBulkUploadFile: a null list, or fewer than two lines (header plus at
      least one row), is an empty file. */
  function ValidateEmptyBulkUploadFile(lines: Option<seq<seq<string>>>): (r: Check)
    ensures r.Pass? <==> lines.Some? && |lines.value| >= 2
    ensures r.Fail? ==> r.error == EmptyFile
  {
    if lines.None? || |lines.value| < 2 then Fail(EmptyFile) else Pass
  }

  function TrimAll(xs: seq<string>): (r: seq<string>)
    ensures |r| == |xs|
  {
    seq(|xs|, i requires 0 <= i < |xs| => Trim(xs[i]))
  }

  /** trimColumnAttributes: trims every entry of the array in place. */
  method TrimColumnAttributes(columns: array<string>)
    modifies columns
    ensures columns[..] == TrimAll(old(columns[..]))
  {
    for i := 0 to columns.Length
      invariant forall k :: 0 <= k < i ==> columns[k] == Trim(old(columns[k]))
      invariant forall k :: i <= k < columns.Length ==> columns[k] == old(columns[k])
    {
      columns[i] := Trim(columns[i]);
    }
  }

  /** The index of the first line the skip predicate keeps. */
  function FirstKept(rows: seq<seq<string>>, skip: seq<string> -> bool): (r: Option<nat>)
    ensures r.None? <==> forall k :: 0 <= k < |rows| ==> skip(rows[k])
    ensures r.Some? ==> r.value < |rows| && !skip(rows[r.value])
    ensures r.Some? ==> forall k :: 0 <= k < r.value ==> skip(rows[k])
  {
    if rows == [] then None
    else if !skip(rows[0]) then Some(0)
    else match FirstKept(rows[1..], skip)
      case None => None
      case Some(i) => Some(i + 1)
  }

  /** The checks validateFileHeaderFields runs on the trimmed header line. */
  function HeaderLineVerdict(header: seq<string>, allowed: seq<string>, allFieldsMandatory: bool, toLower: bool,
                             mandatory: Option<seq<string>>, aliases: map<string, string>): Check
  {
    var fields := ValidateBulkUploadFields(header, allowed, allFieldsMandatory, toLower);
    if fields.Fail? || mandatory.None? then fields
    else ValidateMandatoryColumns(mandatory.value, header, aliases)
  }

  /** The verdict of validateFileHeaderFields on a whole input. */
  function FileHeaderVerdict(input: CsvInput, skip: seq<string> -> bool, allowed: seq<string>, allFieldsMandatory: bool,
                             toLower: bool, mandatory: Option<seq<string>>, aliases: map<string, string>): Check
  {
    match FirstKept(input.rows, skip)
    case None => Fail(AtEnd(input, CsvFileEmpty))
    case Some(h) =>
      var verdict := HeaderLineVerdict(TrimAll(input.rows[h]), allowed, allFieldsMandatory, toLower, mandatory, aliases);
      if verdict.Fail? then verdict
      else if h + 1 < |input.rows| then Pass
      else Fail(AtEnd(input, ErrorCsvNoDataRows))
  }

  lemma FirstKeptAt(rows: seq<seq<string>>, skip: seq<string> -> bool, i: nat)
    requires i < |rows| && !skip(rows[i])
    requires forall k :: 0 <= k < i ==> skip(rows[k])
    ensures FirstKept(rows, skip) == Some(i)
  {
  }

  /** Trims a header line in place (as an array) and runs the header checks on it. */
  method CheckHeaderLine(line: seq<string>, allowed: seq<string>, allFieldsMandatory: bool, toLower: bool,
                         mandatory: Option<seq<string>>, aliases: map<string, string>)
    returns (r: Check)
    ensures r == HeaderLineVerdict(TrimAll(line), allowed, allFieldsMandatory, toLower, mandatory, aliases)
  {
    var columns := new string[|line|](k requires 0 <= k < |line| => line[k]);
    assert columns[..] == line;
    TrimColumnAttributes(columns);
    var header := columns[..];
    r := ValidateBulkUploadFields(header, allowed, allFieldsMandatory, toLower);
    if r.Pass? && mandatory.Some? {
      r := ValidateMandatoryColumns(mandatory.value, header, aliases);
    }
  }

  /** validateFileHeaderFields: skips leading skipped lines, validates the first kept
      line as the header, then needs one more raw line, read without the skip predicate. */
  method ValidateFileHeaderFields(input: CsvInput, skip: seq<string> -> bool, allowed: seq<string>, allFieldsMandatory: bool,
                                  toLower: bool, mandatory: Option<seq<string>>, aliases: map<string, string>)
    returns (r: Check)
    ensures r == FileHeaderVerdict(input, skip, allowed, allFieldsMandatory, toLower, mandatory, aliases)
  {
    var rows := input.rows;
    var flag := true;
    var i := 0;
    while flag
      invariant 0 <= i <= |rows|
      invariant flag ==> forall k :: 0 <= k < i ==> skip(rows[k])
      invariant !flag ==>
        0 < i && FirstKept(rows, skip) == Some(i - 1)
        && HeaderLineVerdict(TrimAll(rows[i - 1]), allowed, allFieldsMandatory, toLower, mandatory, aliases).Pass?
      decreases |rows| - i, flag
    {
      if i == |rows| {
        assert FirstKept(rows, skip).None?;
        return Fail(AtEnd(input, CsvFileEmpty));
      }
      var line := rows[i];
      i := i + 1;
      if skip(line) {
        continue;
      }
      FirstKeptAt(rows, skip, i - 1);
      r := CheckHeaderLine(line, allowed, allFieldsMandatory, toLower, mandatory, aliases);
      if r.Fail? {
        assert FileHeaderVerdict(input, skip, allowed, allFieldsMandatory, toLower, mandatory, aliases) == r;
        return;
      }
      flag := false;
    }
    ghost var h := i - 1;
    assert FirstKept(rows, skip) == Some(h);
    if i == |rows| {
      return Fail(AtEnd(input, ErrorCsvNoDataRows));
    }
    r := Pass;
  }

  /** Lines the predicate skips, placed in front, only shift the first kept line. */
  lemma {:induction false} FirstKeptAfterSkipped(pre: seq<seq<string>>, rows: seq<seq<string>>, skip: seq<string> -> bool)
    requires forall k :: 0 <= k < |pre| ==> skip(pre[k])
    ensures FirstKept(pre + rows, skip)
         == (if FirstKept(rows, skip).None? then None else Some(FirstKept(rows, skip).value + |pre|))
  {
    if pre != [] {
      assert (pre + rows)[1..] == pre[1..] + rows;
      FirstKeptAfterSkipped(pre[1..], rows, skip);
    } else {
      assert pre + rows == rows;
    }
  }

  /** Two inputs whose first kept lines agree, up to a shift of d lines, get the same verdict. */
  lemma ShiftedHeaderSameVerdict(a: CsvInput, b: CsvInput, d: nat, skip: seq<string> -> bool,
                                 allowed: seq<string>, allFieldsMandatory: bool, toLower: bool,
                                 mandatory: Option<seq<string>>, aliases: map<string, string>)
    requires a.failure == b.failure && |a.rows| == |b.rows| + d
    requires FirstKept(a.rows, skip)
          == (if FirstKept(b.rows, skip).None? then None else Some(FirstKept(b.rows, skip).value + d))
    requires FirstKept(b.rows, skip).Some? ==>
               a.rows[FirstKept(b.rows, skip).value + d] == b.rows[FirstKept(b.rows, skip).value]
    ensures FileHeaderVerdict(a, skip, allowed, allFieldsMandatory, toLower, mandatory, aliases)
         == FileHeaderVerdict(b, skip, allowed, allFieldsMandatory, toLower, mandatory, aliases)
  {
  }

  /** Leading lines the skip predicate drops make no difference to the verdict. */
  lemma LeadingSkippedLinesIgnored(pre: seq<seq<string>>, input: CsvInput, skip: seq<string> -> bool,
                                   allowed: seq<string>, allFieldsMandatory: bool, toLower: bool,
                                   mandatory: Option<seq<string>>, aliases: map<string, string>)
    requires forall k :: 0 <= k < |pre| ==> skip(pre[k])
    ensures FileHeaderVerdict(CsvInput(pre + input.rows, input.failure), skip, allowed, allFieldsMandatory, toLower, mandatory, aliases)
         == FileHeaderVerdict(input, skip, allowed, allFieldsMandatory, toLower, mandatory, aliases)
  {
    var all := CsvInput(pre + input.rows, input.failure);
    FirstKeptAfterSkipped(pre, input.rows, skip);
    if FirstKept(input.rows, skip).Some? {
      var h := FirstKept(input.rows, skip).value;
      assert all.rows[h + |pre|] == input.rows[h];
    }
    ShiftedHeaderSameVerdict(all, input, |pre|, skip, allowed, allFieldsMandatory, toLower, mandatory, aliases);
  }

  /** The line after the header is read without the skip predicate: a header followed
      only by a line the predicate would skip still passes. */
  lemma SkippedLineAfterHeaderCountsAsData(header: seq<string>, blank: seq<string>, skip: seq<string> -> bool,
                                           allowed: seq<string>, toLower: bool)
    requires !skip(header) && skip(blank)
    requires HeaderAccepted(TrimAll(header), allowed, false, toLower)
    ensures FileHeaderVerdict(CsvInput([header, blank], None), skip, allowed, false, toLower, None, map[]) == Pass
  {
    assert FirstKept([header, blank], skip) == Some(0);
  }
}
