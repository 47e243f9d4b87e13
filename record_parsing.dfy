/** Row parsing of BaseBulkUploadActor: validateAndParseRecords turns the kept CSV lines
    into NEW tasks (the first kept line is the header) and hands them to the batch
    writer in fixed-size batches; parseCsvFile collects the kept lines. A read failure
    marks the job FAILED with the exception's message before it propagates. */
module RecordParsing {
  import opened Wrappers
  import opened Text
  import opened BulkCommon
  import opened HeaderChecks
  import opened BulkStore

  /** The lines the skip predicate keeps, in order. */
  function Kept(rows: seq<seq<string>>, skip: seq<string> -> bool): (r: seq<seq<string>>)
    ensures |r| <= |rows|
  {
    if rows == [] then []
    else
      var last := rows[|rows| - 1];
      Kept(rows[..|rows| - 1], skip) + (if skip(last) then [] else [last])
  }

  lemma KeptStep(rows: seq<seq<string>>, i: nat, skip: seq<string> -> bool)
    requires i < |rows|
    ensures Kept(rows[..i + 1], skip) == Kept(rows[..i], skip) + (if skip(rows[i]) then [] else [rows[i]])
  {
    assert rows[..i + 1][..i] == rows[..i];
  }

  /** The kept lines are lines of the input that the predicate does not skip. */
  lemma {:induction false} KeptMeaning(rows: seq<seq<string>>, skip: seq<string> -> bool)
    ensures forall k :: 0 <= k < |Kept(rows, skip)| ==> !skip(Kept(rows, skip)[k]) && Kept(rows, skip)[k] in rows
  {
    if rows != [] {
      KeptMeaning(rows[..|rows| - 1], skip);
      assert forall x :: x in rows[..|rows| - 1] ==> x in rows;
    }
  }

  /** Every line the predicate keeps is there, in order: filtering is the identity on a
      file without skipped lines, and a skipped line leaves no trace. */
  lemma {:induction false} KeptKeepsUnskipped(rows: seq<seq<string>>, skip: seq<string> -> bool)
    requires forall k :: 0 <= k < |rows| ==> !skip(rows[k])
    ensures Kept(rows, skip) == rows
  {
    if rows != [] {
      KeptKeepsUnskipped(rows[..|rows| - 1], skip);
    }
  }

  /** A field value: trimmed, and null when nothing is left. */
  function Cell(v: string): Value
  {
    if |Trim(v)| == 0 then Null else Str(Trim(v))
  }

  /** A field is null exactly when the text is blank, and otherwise the trimmed text,
      which is never empty. */
  lemma CellMeaning(v: string)
    ensures Cell(v).Null? <==> forall k :: 0 <= k < |v| ==> IsTrimmed(v[k])
    ensures Cell(v).Str? ==> Cell(v).s == Trim(v) && Cell(v).s != []
    ensures Cell(v).Null? || Cell(v).Str?
  {
    TrimEmptyIffBlank(v);
  }

  /** The key a column is stored under: its alias when the map knows its (folded)
      name, otherwise the header name as written. */
  function KeyFor(column: string, aliases: Option<map<string, string>>, toLower: bool): string
  {
    var c := Fold(column, toLower);
    if aliases.Some? && c in aliases.value then aliases.value[c] else column
  }

  /** The keys of the first w positions. */
  function RowKeys(columns: seq<string>, w: nat, aliases: Option<map<string, string>>, toLower: bool): (ks: seq<string>)
    requires w <= |columns|
    ensures |ks| == w && forall j :: 0 <= j < w ==> ks[j] == KeyFor(columns[j], aliases, toLower)
  {
    seq(w, j requires 0 <= j < w => KeyFor(columns[j], aliases, toLower))
  }

  /** The values of the first w positions. */
  function RowValues(line: seq<string>, w: nat): (vs: seq<Value>)
    requires w <= |line|
    ensures |vs| == w && forall j :: 0 <= j < w ==> vs[j] == Cell(line[j])
  {
    seq(w, j requires 0 <= j < w => Cell(line[j]))
  }

  /** The map after putting keys[j] := values[j] for j = 0, ..., n - 1, in that order. */
  function Puts<K, V>(keys: seq<K>, values: seq<V>, n: nat): map<K, V>
    requires n <= |keys| && n <= |values|
  {
    if n == 0 then map[] else Puts(keys, values, n - 1)[keys[n - 1] := values[n - 1]]
  }

  /** No position in (j, n) has the key of position j. */
  predicate LastWithKey<K(==)>(keys: seq<K>, j: nat, n: nat)
    requires j < n <= |keys|
  {
    forall j' :: j < j' < n ==> keys[j'] != keys[j]
  }

  /** The first n puts leave exactly the keys of those positions. */
  lemma {:induction false} PutsKeys<K, V>(keys: seq<K>, values: seq<V>, n: nat)
    requires n <= |keys| && n <= |values|
    ensures forall key :: key in Puts(keys, values, n) <==> key in keys[..n]
  {
    if n > 0 {
      PutsKeys(keys, values, n - 1);
      assert keys[..n] == keys[..n - 1] + [keys[n - 1]];
    }
  }

  /** A key holds the value of the last of the first n positions that has it. */
  lemma {:induction false} PutsValues<K, V>(keys: seq<K>, values: seq<V>, n: nat, j: nat)
    requires j < n <= |keys| && n <= |values|
    requires LastWithKey(keys, j, n)
    ensures keys[j] in Puts(keys, values, n) && Puts(keys, values, n)[keys[j]] == values[j]
  {
    if j < n - 1 {
      assert keys[n - 1] != keys[j];
      assert LastWithKey(keys, j, n - 1);
      PutsValues(keys, values, n - 1, j);
    }
  }

  /** A relation every put pair satisfies holds of every entry of the result. */
  lemma {:induction false} PutsEntries<K, V>(keys: seq<K>, values: seq<V>, n: nat, ok: (K, V) -> bool)
    requires n <= |keys| && n <= |values|
    requires forall j :: 0 <= j < n ==> ok(keys[j], values[j])
    ensures forall key :: key in Puts(keys, values, n) ==> ok(key, Puts(keys, values, n)[key])
  {
    if n > 0 {
      PutsEntries(keys, values, n - 1, ok);
    }
  }

  /** Only positions below both lengths are used. */
  function Width(columns: seq<string>, line: seq<string>): (w: nat)
    ensures w <= |columns| && w <= |line|
    ensures w == |columns| || w == |line|
  {
    if |columns| < |line| then |columns| else |line|
  }

  /** One data line as a record: positional fields, then the constant fields on top. */
  function MapRow(columns: seq<string>, line: seq<string>, aliases: Option<map<string, string>>, toLower: bool, additional: Record): Record
  {
    var w := Width(columns, line);
    Puts(RowKeys(columns, w, aliases, toLower), RowValues(line, w), w) + additional
  }

  /** Row mapping: constant fields override; every other key is the key of a position
      below both lengths, and holds the trimmed-or-null value of the last position with
      that key. */
  lemma MapRowMeaning(columns: seq<string>, line: seq<string>, aliases: Option<map<string, string>>, toLower: bool, additional: Record)
    ensures var r, w := MapRow(columns, line, aliases, toLower, additional), Width(columns, line);
      var keys := RowKeys(columns, w, aliases, toLower);
      && (forall key :: key in additional ==> key in r && r[key] == additional[key])
      && (forall key :: key !in additional ==> (key in r <==> key in keys))
      && (forall j :: (0 <= j < w && keys[j] !in additional && LastWithKey(keys, j, w)) ==> r[keys[j]] == Cell(line[j]))
  {
    var w := Width(columns, line);
    var keys := RowKeys(columns, w, aliases, toLower);
    var values := RowValues(line, w);
    PutsKeys(keys, values, w);
    assert keys[..w] == keys;
    forall j | 0 <= j < w && keys[j] !in additional && LastWithKey(keys, j, w)
      ensures MapRow(columns, line, aliases, toLower, additional)[keys[j]] == Cell(line[j])
    {
      PutsValues(keys, values, w, j);
    }
  }

  /** The inner loop of validateAndParseRecords: puts each position of the line into a
      fresh record. */
  method PutRowFields(columns: seq<string>, line: seq<string>, aliases: Option<map<string, string>>, toLower: bool)
    returns (record: Record)
    ensures var w := Width(columns, line);
      record == Puts(RowKeys(columns, w, aliases, toLower), RowValues(line, w), w)
  {
    ghost var w := Width(columns, line);
    ghost var keys := RowKeys(columns, w, aliases, toLower);
    ghost var values := RowValues(line, w);
    record := map[];
    var j := 0;
    while j < |columns| && j < |line|
      invariant 0 <= j <= w
      invariant record == Puts(keys, values, j)
    {
      var value := Cell(line[j]);
      var column := Fold(columns[j], toLower);
      assert value == values[j];
      ghost var key := if aliases.Some? && column in aliases.value then aliases.value[column] else columns[j];
      assert key == keys[j];
      assert Puts(keys, values, j + 1) == record[key := value];
      if aliases.Some? && column in aliases.value {
        record := record[aliases.value[column] := value];
      } else {
        record := record[columns[j] := value];
      }
      j := j + 1;
    }
    assert j == w;
  }

  // ---------------------------------------------------------------------------
  // Batching

  /** getBatchSize: the configured value when it parses as an int, otherwise 10. */
  function GetBatchSize(config: Option<string>): (r: int)
  {
    match ParseInt(config)
    case Some(n) => n
    case None => 10
  }

  lemma BatchSizeReadsConfig(n: nat)
    requires n <= MAX_INT
    ensures GetBatchSize(Some(Decimal(n))) == n
    ensures GetBatchSize(None) == 10
    ensures GetBatchSize(Some("")) == 10 && GetBatchSize(Some("ten")) == 10
  {
    ParseIntOfDecimal(n);
  }

  /** A flush happens as soon as the count reaches the batch size, so a size below 1
      flushes every task on its own. */
  function EffectiveBatchSize(batchSize: int): (n: nat)
    ensures n >= 1
    ensures batchSize >= 1 ==> n == batchSize
  {
    if batchSize >= 1 then batchSize else 1
  }

  function Chunks<T>(s: seq<T>, n: nat): seq<seq<T>>
    requires n >= 1
    decreases |s|
  {
    if |s| == 0 then [] else if |s| <= n then [s] else [s[..n]] + Chunks(s[n..], n)
  }

  function Flatten<T>(ss: seq<seq<T>>): seq<T>
  {
    if ss == [] then [] else ss[0] + Flatten(ss[1..])
  }

  /** Chunks covers the sequence in order; each chunk is non-empty and at most n long,
      and only the last may be shorter than n. */
  lemma {:induction false} ChunksShape<T>(s: seq<T>, n: nat)
    requires n >= 1
    ensures Flatten(Chunks(s, n)) == s
    ensures forall k :: 0 <= k < |Chunks(s, n)| ==> 0 < |Chunks(s, n)[k]| <= n
    ensures forall k :: 0 <= k < |Chunks(s, n)| - 1 ==> |Chunks(s, n)[k]| == n
    decreases |s|
  {
    if |s| > n {
      ChunksShape(s[n..], n);
      assert s == s[..n] + s[n..];
    } else if |s| > 0 {
      assert Flatten([s]) == s + Flatten([s][1..]);
    }
  }

  /** The full batches only: what has been flushed when a failure cuts the scan short. */
  function FullChunks<T>(s: seq<T>, n: nat): seq<seq<T>>
    requires n >= 1
    decreases |s|
  {
    if |s| < n then [] else [s[..n]] + FullChunks(s[n..], n)
  }

  /** The full chunks are all of size n, cover a prefix of the sequence in order, and
      leave fewer than n elements over. */
  lemma {:induction false} FullChunksShape<T>(s: seq<T>, n: nat)
    requires n >= 1
    ensures forall k :: 0 <= k < |FullChunks(s, n)| ==> |FullChunks(s, n)[k]| == n
    ensures var f := Flatten(FullChunks(s, n)); |f| <= |s| && f == s[..|f|] && |s| - |f| < n
    decreases |s|
  {
    if |s| >= n {
      FullChunksShape(s[n..], n);
      var f := Flatten(FullChunks(s[n..], n));
      assert Flatten(FullChunks(s, n)) == s[..n] + f;
      assert s[..n] + f == s[..n + |f|];
    }
  }

  lemma {:induction false} FlattenAppend<T>(bs: seq<seq<T>>, b: seq<T>)
    ensures Flatten(bs + [b]) == Flatten(bs) + b
  {
    if bs != [] {
      assert (bs + [b])[1..] == bs[1..] + [b];
      FlattenAppend(bs[1..], b);
    } else {
      assert Flatten([b]) == b + Flatten([b][1..]);
    }
  }

  /** A list of batches, all of size n but the last, which is non-empty and at most n
      long, is the chunking of its concatenation. */
  lemma {:induction false} ChunksOfBatches<T>(bs: seq<seq<T>>, n: nat)
    requires n >= 1
    requires forall k :: 0 <= k < |bs| ==> 0 < |bs[k]| <= n
    requires forall k :: 0 <= k < |bs| - 1 ==> |bs[k]| == n
    ensures Chunks(Flatten(bs), n) == bs
  {
    if bs != [] {
      ChunksOfBatches(bs[1..], n);
      var rest := Flatten(bs[1..]);
      assert Flatten(bs) == bs[0] + rest;
      if |bs| == 1 {
        assert rest == [];
        assert Flatten(bs) == bs[0];
      } else {
        assert |rest| > 0 by {
          assert Flatten(bs[1..]) == bs[1] + Flatten(bs[2..]);
        }
        assert (bs[0] + rest)[..n] == bs[0];
        assert (bs[0] + rest)[n..] == rest;
      }
    }
  }

  /** A list of full batches followed by fewer than n pending elements: the full chunks
      of the whole are exactly those batches. */
  lemma {:induction false} FullChunksOfBatches<T>(bs: seq<seq<T>>, pending: seq<T>, n: nat)
    requires n >= 1 && |pending| < n
    requires forall k :: 0 <= k < |bs| ==> |bs[k]| == n
    ensures FullChunks(Flatten(bs) + pending, n) == bs
  {
    if bs == [] {
      assert Flatten(bs) + pending == pending;
    } else {
      FullChunksOfBatches(bs[1..], pending, n);
      var s := Flatten(bs) + pending;
      assert s == bs[0] + (Flatten(bs[1..]) + pending);
      assert s[..n] == bs[0];
      assert s[n..] == Flatten(bs[1..]) + pending;
    }
  }

  // ---------------------------------------------------------------------------
  // Tasks

  /** A task as validateAndParseRecords creates it. */
  function NewTask(processId: string, sequenceId: int, data: Record): TaskRecord
  {
    TaskRecord(processId, sequenceId, Some(NEW), data, None, None, 0, None)
  }

  /** How a data line becomes a record, given the trimmed header. */
  type RowMapping = (seq<string>, seq<string>) -> Record

  /** The mapping validateAndParseRecords applies: MapRow with its settings. */
  function RowMapper(aliases: Option<map<string, string>>, toLower: bool, additional: Record): RowMapping
  {
    (columns: seq<string>, line: seq<string>) => MapRow(columns, line, aliases, toLower, additional)
  }

  /** The tasks the kept lines give: one per line after the header, numbered from 1. */
  function ExpectedTasks(processId: string, kept: seq<seq<string>>, toRecord: RowMapping): (ts: seq<TaskRecord>)
    ensures |ts| == if |kept| == 0 then 0 else |kept| - 1
  {
    if |kept| == 0 then []
    else
      seq(|kept| - 1, i requires 0 <= i < |kept| - 1 => NewTask(processId, i + 1, toRecord(TrimAll(kept[0]), kept[i + 1])))
  }

  /** The sequence ids of the created tasks are 1, 2, 3, ... without gaps, every task is
      NEW, belongs to the job and carries the record of its line. */
  lemma SequenceIdsContiguous(processId: string, kept: seq<seq<string>>, toRecord: RowMapping)
    ensures var ts := ExpectedTasks(processId, kept, toRecord);
      && (|kept| > 0 ==> |ts| == |kept| - 1)
      && (forall i :: 0 <= i < |ts| ==>
            ts[i].sequenceId == i + 1 && ts[i].status == Some(NEW) && ts[i].processId == processId
            && ts[i].data == toRecord(TrimAll(kept[0]), kept[i + 1]))
      && (forall i, j :: 0 <= i < j < |ts| ==> ts[i].sequenceId < ts[j].sequenceId)
  {
    var ts := ExpectedTasks(processId, kept, toRecord);
    forall i | 0 <= i < |ts|
      ensures ts[i] == NewTask(processId, i + 1, toRecord(TrimAll(kept[0]), kept[i + 1]))
    {
    }
  }

  lemma ExpectedTasksStep(processId: string, kept: seq<seq<string>>, line: seq<string>, toRecord: RowMapping)
    requires |kept| > 0
    ensures ExpectedTasks(processId, kept + [line], toRecord)
         == ExpectedTasks(processId, kept, toRecord) + [NewTask(processId, |kept|, toRecord(TrimAll(kept[0]), line))]
  {
    var a := ExpectedTasks(processId, kept + [line], toRecord);
    var b := ExpectedTasks(processId, kept, toRecord) + [NewTask(processId, |kept|, toRecord(TrimAll(kept[0]), line))];
    assert (kept + [line])[0] == kept[0];
    assert |a| == |b|;
    forall i | 0 <= i < |a| ensures a[i] == b[i] {
      assert (kept + [line])[i + 1] == if i + 1 < |kept| then kept[i + 1] else line;
    }
  }

  /** The header columns, trimmed in place as an array. */
  method TrimmedHeader(line: seq<string>) returns (columns: seq<string>)
    ensures columns == TrimAll(line)
  {
    var a := new string[|line|](k requires 0 <= k < |line| => line[k]);
    assert a[..] == line;
    TrimColumnAttributes(a);
    columns := a[..];
  }

  /** A flush appends the pending tasks to the batches requested so far. */
  lemma FlushAppends(before: seq<StoreCall>, added: seq<StoreCall>, batches: seq<seq<TaskRecord>>, records: seq<TaskRecord>)
    requires Batches(before) == batches && Batches(added) == [records]
    ensures Batches(before + added) == batches + [records]
    ensures Flatten(batches + [records]) == Flatten(batches) + records
  {
    WrittenAppend(before, added);
    FlattenAppend(batches, records);
  }

  /** One flush: the pending tasks are written as one batch, appended to the batches
      requested since the call log had length start. */
  method FlushBatch(tasks: TaskStore, records: seq<TaskRecord>, ghost batches: seq<seq<TaskRecord>>, ghost start: nat)
    requires start <= |tasks.calls| && Batches(tasks.calls[start..]) == batches
    modifies tasks
    ensures |tasks.calls| >= |old(tasks.calls)| && tasks.calls[..|old(tasks.calls)|] == old(tasks.calls)
    ensures Batches(tasks.calls[start..]) == batches + [records]
    ensures Flatten(batches + [records]) == Flatten(batches) + records
  {
    ghost var before := tasks.calls[start..];
    ghost var mid := |tasks.calls|;
    PerformBatchInsert(tasks, records);
    assert tasks.calls[start..] == before + tasks.calls[mid..];
    FlushAppends(before, tasks.calls[mid..], batches, records);
  }

  /** The part of validateAndParseRecords that handles one created task: it joins the
      pending list, which is written as one batch once it holds batchSize tasks. The
      ghost batches are the batches requested since the call log had length start. */
  method AddTask(tasks: TaskStore, records: seq<TaskRecord>, count: int, task: TaskRecord, batchSize: int,
                 ghost batches: seq<seq<TaskRecord>>, ghost start: nat)
    returns (records': seq<TaskRecord>, count': int, ghost batches': seq<seq<TaskRecord>>)
    requires count == |records| < EffectiveBatchSize(batchSize)
    requires forall k :: 0 <= k < |batches| ==> |batches[k]| == EffectiveBatchSize(batchSize)
    requires start <= |tasks.calls| && Batches(tasks.calls[start..]) == batches
    modifies tasks
    ensures count' == |records'| < EffectiveBatchSize(batchSize)
    ensures forall k :: 0 <= k < |batches'| ==> |batches'[k]| == EffectiveBatchSize(batchSize)
    ensures Flatten(batches') + records' == Flatten(batches) + records + [task]
    ensures |tasks.calls| >= |old(tasks.calls)| && tasks.calls[..|old(tasks.calls)|] == old(tasks.calls)
    ensures Batches(tasks.calls[start..]) == batches'
  {
    records' := records + [task];
    count' := count + 1;
    batches' := batches;
    assert Flatten(batches) + records' == Flatten(batches) + records + [task];
    if count' >= batchSize {
      FlushBatch(tasks, records', batches, start);
      batches' := batches + [records'];
      assert Flatten(batches') + [] == Flatten(batches) + records';
      records' := [];
      count' := 0;
    }
  }

  /** The end of the scan of validateAndParseRecords. At the end of input the pending
      tasks, when there are any, are written as one last batch, so that the requested
      batches are the chunking of every task created. When reading failed instead, the
      pending tasks are dropped, the job is marked FAILED with the exception's message,
      and the exception is returned for rethrowing. */
  method FinishScan(failure: Option<string>, processId: string, tasks: TaskStore, processes: ProcessStore,
                    records: seq<TaskRecord>, count: int, ghost n: nat, ghost batches: seq<seq<TaskRecord>>, ghost start: nat)
    returns (thrown: Option<Error>)
    requires n >= 1 && count == |records| < n
    requires forall k :: 0 <= k < |batches| ==> |batches[k]| == n
    requires start <= |tasks.calls| && Batches(tasks.calls[start..]) == batches
    modifies tasks, processes
    ensures |tasks.calls| >= |old(tasks.calls)| && tasks.calls[..|old(tasks.calls)|] == old(tasks.calls)
    ensures failure.None? ==>
      && thrown.None? && processes.writes == old(processes.writes)
      && Batches(tasks.calls[start..]) == Chunks(Flatten(batches) + records, n)
    ensures failure.Some? ==>
      && thrown == Some(Unexpected(failure.value))
      && processes.writes == old(processes.writes)
         + [Updated(GetBulkUploadProcessForFailedStatus(processId, FAILED, Unexpected(failure.value)))]
      && tasks.calls == old(tasks.calls)
      && Batches(tasks.calls[start..]) == FullChunks(Flatten(batches) + records, n)
  {
    if failure.Some? {
      var ex := Unexpected(failure.value);
      processes.Update(GetBulkUploadProcessForFailedStatus(processId, FAILED, ex));
      FullChunksOfBatches(batches, records, n);
      return Some(ex);
    }
    FlushPending(tasks, records, count, n, batches, start);
    thrown := None;
  }

  /** The final flush of validateAndParseRecords: pending tasks, when there are any, are
      written as one last batch, so that the requested batches are the chunking of every
      task created. */
  method FlushPending(tasks: TaskStore, records: seq<TaskRecord>, count: int, ghost n: nat,
                      ghost batches: seq<seq<TaskRecord>>, ghost start: nat)
    requires n >= 1 && count == |records| < n
    requires forall k :: 0 <= k < |batches| ==> |batches[k]| == n
    requires start <= |tasks.calls| && Batches(tasks.calls[start..]) == batches
    modifies tasks
    ensures |tasks.calls| >= |old(tasks.calls)| && tasks.calls[..|old(tasks.calls)|] == old(tasks.calls)
    ensures Batches(tasks.calls[start..]) == Chunks(Flatten(batches) + records, n)
  {
    if count != 0 {
      FlushBatch(tasks, records, batches, start);
      ChunksOfBatches(batches + [records], n);
    } else {
      assert Flatten(batches) + records == Flatten(batches);
      ChunksOfBatches(batches, n);
    }
  }

  /** What the scan of validateAndParseRecords has established once it has seen the
      kept lines `kept`: the trimmed header, the tasks created so far, the pending
      (unflushed) ones and the full batches already requested. */
  ghost predicate ScanState(kept: seq<seq<string>>, columns: seq<string>, created: seq<TaskRecord>, records: seq<TaskRecord>,
                            count: int, batches: seq<seq<TaskRecord>>, n: nat, processId: string,
                            aliases: Option<map<string, string>>, toLower: bool, additional: Record)
  {
    && (|kept| > 0 ==> columns == TrimAll(kept[0]))
    && created == ExpectedTasks(processId, kept, RowMapper(aliases, toLower, additional))
    && count == |records| < n
    && Flatten(batches) + records == created
    && (forall k :: 0 <= k < |batches| ==> |batches[k]| == n)
  }

  /** The body of the scan for one kept line: the first one is the header, every later
      one becomes a task. */
  method ScanLine(tasks: TaskStore, line: seq<string>, sequence: int, columns: seq<string>, records: seq<TaskRecord>,
                  count: int, batchSize: int, processId: string, aliases: Option<map<string, string>>, toLower: bool,
                  additional: Record, ghost kept: seq<seq<string>>, ghost created: seq<TaskRecord>,
                  ghost batches: seq<seq<TaskRecord>>, ghost start: nat)
    returns (columns': seq<string>, records': seq<TaskRecord>, count': int, ghost created': seq<TaskRecord>,
             ghost batches': seq<seq<TaskRecord>>)
    requires sequence == |kept|
    requires ScanState(kept, columns, created, records, count, batches, EffectiveBatchSize(batchSize), processId, aliases, toLower, additional)
    requires start <= |tasks.calls| && Batches(tasks.calls[start..]) == batches
    modifies tasks
    ensures ScanState(kept + [line], columns', created', records', count', batches', EffectiveBatchSize(batchSize),
                      processId, aliases, toLower, additional)
    ensures |tasks.calls| >= |old(tasks.calls)| && tasks.calls[..|old(tasks.calls)|] == old(tasks.calls)
    ensures Batches(tasks.calls[start..]) == batches'
  {
    if sequence == 0 {
      columns' := TrimmedHeader(line);
      records', count', created', batches' := records, count, created, batches;
      assert kept + [line] == [line];
    } else {
      columns' := columns;
      assert (kept + [line])[0] == kept[0];
      ExpectedTasksStep(processId, kept, line, RowMapper(aliases, toLower, additional));
      var record := PutRowFields(columns, line, aliases, toLower);
      record := record + additional;
      assert record == RowMapper(aliases, toLower, additional)(TrimAll(kept[0]), line);
      var task := NewTask(processId, sequence, record);
      created' := created + [task];
      records', count', batches' := AddTask(tasks, records, count, task, batchSize, batches, start);
    }
  }

  /** The loop of validateAndParseRecords over the input: the first kept line is the
      header, every later kept line becomes a task, and every full batch of tasks is
      written as it fills. It returns the number of kept lines and the pending tasks;
      the ghost batches are the batches it requested. */
  method ScanRows(rows: seq<seq<string>>, skip: seq<string> -> bool, processId: string, additional: Record,
                  aliases: Option<map<string, string>>, toLower: bool, batchSize: int, tasks: TaskStore)
    returns (sequence: int, records: seq<TaskRecord>, count: int, ghost batches: seq<seq<TaskRecord>>)
    modifies tasks
    ensures sequence == |Kept(rows, skip)|
    ensures count == |records| < EffectiveBatchSize(batchSize)
    ensures Flatten(batches) + records == ExpectedTasks(processId, Kept(rows, skip), RowMapper(aliases, toLower, additional))
    ensures forall k :: 0 <= k < |batches| ==> |batches[k]| == EffectiveBatchSize(batchSize)
    ensures |tasks.calls| >= |old(tasks.calls)| && tasks.calls[..|old(tasks.calls)|] == old(tasks.calls)
    ensures Batches(tasks.calls[|old(tasks.calls)|..]) == batches
  {
    ghost var n := EffectiveBatchSize(batchSize);
    sequence := 0;
    count := 0;
    var columns: seq<string> := [];
    records := [];
    ghost var kept: seq<seq<string>> := [];
    ghost var created: seq<TaskRecord> := [];
    batches := [];
    ghost var start := |tasks.calls|;
    var i := 0;
    while i < |rows|
      invariant 0 <= i <= |rows|
      invariant kept == Kept(rows[..i], skip) && sequence == |kept|
      invariant ScanState(kept, columns, created, records, count, batches, n, processId, aliases, toLower, additional)
      invariant start <= |tasks.calls| && tasks.calls[..start] == old(tasks.calls)
      invariant Batches(tasks.calls[start..]) == batches
    {
      KeptStep(rows, i, skip);
      var line := rows[i];
      if !skip(line) {
        columns, records, count, created, batches :=
          ScanLine(tasks, line, sequence, columns, records, count, batchSize, processId, aliases, toLower, additional,
                   kept, created, batches, start);
        kept := kept + [line];
        sequence := sequence + 1;
      }
      i := i + 1;
    }
    assert rows[..i] == rows;
  }

  /** validateAndParseRecords. The result is the number of kept lines minus one (the
      header); the created tasks are requested in batches of the batch size, in order,
      each in exactly one batch; a read failure drops the tasks of the unfinished batch,
      marks the job FAILED with the exception's message and propagates. */
  method ValidateAndParseRecords(input: CsvInput, skip: seq<string> -> bool, processId: string, additional: Record,
                                 aliases: Option<map<string, string>>, toLower: bool, batchConfig: Option<string>,
                                 tasks: TaskStore, processes: ProcessStore)
    returns (r: Attempt<int>)
    modifies tasks, processes
    ensures |tasks.calls| >= |old(tasks.calls)| && tasks.calls[..|old(tasks.calls)|] == old(tasks.calls)
    ensures var created := ExpectedTasks(processId, Kept(input.rows, skip), RowMapper(aliases, toLower, additional));
      var n := EffectiveBatchSize(GetBatchSize(batchConfig));
      Batches(tasks.calls[|old(tasks.calls)|..]) == if input.failure.None? then Chunks(created, n) else FullChunks(created, n)
    ensures input.failure.None? ==>
      r == Ok(|Kept(input.rows, skip)| - 1) && processes.writes == old(processes.writes)
    ensures input.failure.Some? ==>
      r == Threw(Unexpected(input.failure.value))
      && processes.writes == old(processes.writes)
         + [Updated(GetBulkUploadProcessForFailedStatus(processId, FAILED, Unexpected(input.failure.value)))]
  {
    var batchSize := GetBatchSize(batchConfig);
    ghost var start := |tasks.calls|;
    var sequence, records, count, batches := ScanRows(input.rows, skip, processId, additional, aliases, toLower, batchSize, tasks);
    var thrown := FinishScan(input.failure, processId, tasks, processes, records, count, EffectiveBatchSize(batchSize), batches, start);
    if thrown.Some? {
      return Threw(thrown.value);
    }
    r := Ok(sequence - 1);
  }

  /** Every task validateAndParseRecords creates is requested in exactly one batch, in
      order, none larger than the batch size. */
  lemma EveryTaskInOneBatch(created: seq<TaskRecord>, batchConfig: Option<string>)
    ensures var n := EffectiveBatchSize(GetBatchSize(batchConfig));
      Flatten(Chunks(created, n)) == created
      && forall k :: 0 <= k < |Chunks(created, n)| ==> |Chunks(created, n)[k]| <= n
  {
    ChunksShape(created, EffectiveBatchSize(GetBatchSize(batchConfig)));
  }

  /** parseCsvFile: the lines the skip predicate keeps, untrimmed; a read failure marks
      the job FAILED with its message and propagates. */
  method ParseCsvFile(input: CsvInput, skip: seq<string> -> bool, processId: string, processes: ProcessStore)
    returns (r: Attempt<seq<seq<string>>>)
    modifies processes
    ensures input.failure.None? ==> r == Ok(Kept(input.rows, skip)) && processes.writes == old(processes.writes)
    ensures input.failure.Some? ==>
      r == Threw(Unexpected(input.failure.value))
      && processes.writes == old(processes.writes)
         + [Updated(GetBulkUploadProcessForFailedStatus(processId, FAILED, Unexpected(input.failure.value)))]
  {
    var rows: seq<seq<string>> := [];
    var i := 0;
    while i < |input.rows|
      invariant 0 <= i <= |input.rows|
      invariant rows == Kept(input.rows[..i], skip)
      invariant processes.writes == old(processes.writes)
    {
      KeptStep(input.rows, i, skip);
      var line := input.rows[i];
      i := i + 1;
      if skip(line) {
        continue;
      }
      rows := rows + [line];
    }
    assert input.rows[..i] == input.rows;
    if input.failure.Some? {
      var ex := Unexpected(input.failure.value);
      processes.Update(GetBulkUploadProcessForFailedStatus(processId, FAILED, ex));
      return Threw(ex);
    }
    r := Ok(rows);
  }
}
