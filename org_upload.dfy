/** OrgBulkUploadActor: the front end of an organisation bulk upload. It turns the
    configured supported columns into the allowed header list and a lower-cased alias
    map, validates the header, creates the job record, decides whether the requester's
    root organisation supplies a channel, parses the rows into tasks and hands the job
    to the background actor. */
module OrgUpload {
  import opened Wrappers
  import opened Text
  import opened BulkCommon
  import opened HeaderChecks
  import opened BulkStore
  import opened RecordParsing

  /** One entry of the configured supportedColumns map: (external name, internal name).
      A configuration lists them in the map's iteration order. */
  type Column = (string, string)

  /** The message of the IllegalStateException Collectors.toMap raises when two entries
      map to the same key u-value first, v-value second. */
  function DuplicateKeyMessage(key: string, u: string, v: string): string
  {
    "Duplicate key " + key + " (attempted merging values " + u + " and " + v + ")"
  }

  /** No two of the first n keys are equal. */
  predicate Distinct(keys: seq<string>, n: nat)
    requires n <= |keys|
  {
    forall i, j :: 0 <= i < j < n ==> keys[i] != keys[j]
  }

  /** Collectors.toMap over n (key, value) pairs in encounter order: the first pair whose
      key is already taken throws. */
  function CollectUnique(keys: seq<string>, values: seq<string>, n: nat): Attempt<map<string, string>>
    requires n <= |keys| && n <= |values|
  {
    if n == 0 then Ok(map[])
    else
      var rest := CollectUnique(keys, values, n - 1);
      var key := keys[n - 1];
      if rest.Threw? then rest
      else if key in rest.value then Threw(Unexpected(DuplicateKeyMessage(key, rest.value[key], values[n - 1])))
      else Ok(rest.value[key := values[n - 1]])
  }

  /** The collected map exists iff the keys are distinct; it then holds exactly those
      keys, each with its own pair's value. */
  lemma {:induction false} CollectUniqueMeaning(keys: seq<string>, values: seq<string>, n: nat)
    requires n <= |keys| && n <= |values|
    ensures CollectUnique(keys, values, n).Ok? <==> Distinct(keys, n)
    ensures CollectUnique(keys, values, n).Threw? ==> CollectUnique(keys, values, n).error.Unexpected?
    ensures CollectUnique(keys, values, n).Ok? ==>
      (forall key :: key in CollectUnique(keys, values, n).value <==> key in keys[..n])
      && forall i :: 0 <= i < n ==> CollectUnique(keys, values, n).value[keys[i]] == values[i]
  {
    if n > 0 {
      CollectUniqueMeaning(keys, values, n - 1);
      var rest := CollectUnique(keys, values, n - 1);
      var key := keys[n - 1];
      assert keys[..n] == keys[..n - 1] + [key];
      if rest.Ok? {
        if key in rest.value {
          assert key in keys[..n - 1];
          var i :| 0 <= i < n - 1 && keys[i] == key;
          assert !Distinct(keys, n);
        } else {
          forall i, j | 0 <= i < j < n ensures keys[i] != keys[j] {
            if j == n - 1 {
              assert keys[i] in keys[..n - 1];
            }
          }
          var m := rest.value[key := values[n - 1]];
          forall i | 0 <= i < n ensures m[keys[i]] == values[i] {
            if i < n - 1 {
              assert keys[i] in keys[..n - 1];
            }
          }
        }
      }
    }
  }

  /** The lower-cased external names, in iteration order. */
  function ExternalKeys(columns: seq<Column>): (ks: seq<string>)
    ensures |ks| == |columns| && forall i :: 0 <= i < |columns| ==> ks[i] == Lower(columns[i].0)
  {
    seq(|columns|, i requires 0 <= i < |columns| => Lower(columns[i].0))
  }

  /** The keys and values internalNamesLowerCaseMap is filled with, in iteration order. */
  function InternalKeys(columns: seq<Column>): (ks: seq<string>)
    ensures |ks| == |columns| && forall i :: 0 <= i < |columns| ==> ks[i] == Lower(columns[i].1)
  {
    seq(|columns|, i requires 0 <= i < |columns| => Lower(columns[i].1))
  }

  function InternalValues(columns: seq<Column>): (vs: seq<string>)
    ensures |vs| == |columns| && forall i :: 0 <= i < |columns| ==> vs[i] == columns[i].1
  {
    seq(|columns|, i requires 0 <= i < |columns| => columns[i].1)
  }

  /** No two entries have internal names that differ only in case. */
  predicate DistinctInternalNames(columns: seq<Column>)
  {
    forall i, j :: 0 <= i < |columns| && 0 <= j < |columns| && Lower(columns[i].1) == Lower(columns[j].1)
                   ==> columns[i].1 == columns[j].1
  }

  /** supportedColumnsLowerCaseMap before putAll: the supported columns collected under
      their lower-cased external names, mapped to their internal names. */
  function LowerKeyMap(columns: seq<Column>): Attempt<map<string, string>>
  {
    CollectUnique(ExternalKeys(columns), InternalValues(columns), |columns|)
  }

  /** internalNamesLowerCaseMap: each internal name put under its lower-cased form, a later
      entry replacing an earlier one. */
  method InternalNamesLowerCase(columns: seq<Column>) returns (m: map<string, string>)
    ensures m == Puts(InternalKeys(columns), InternalValues(columns), |columns|)
  {
    ghost var keys := InternalKeys(columns);
    ghost var values := InternalValues(columns);
    m := map[];
    for i := 0 to |columns|
      invariant m == Puts(keys, values, i)
    {
      var v := columns[i].1;
      m := m[Lower(v) := v];
    }
  }

  /** The internal-names map has one key per lowered internal name, and each key holds an
      internal name that lowers to it: that entry's own name when internal names do not
      differ only in case. */
  lemma InternalNamesMeaning(columns: seq<Column>)
    ensures var m := Puts(InternalKeys(columns), InternalValues(columns), |columns|);
      (forall i :: 0 <= i < |columns| ==> Lower(columns[i].1) in m)
      && (forall x :: x in m ==> Lower(m[x]) == x)
      && (forall x :: x in m ==> x in InternalKeys(columns))
      && (DistinctInternalNames(columns) ==> forall i :: 0 <= i < |columns| ==> m[Lower(columns[i].1)] == columns[i].1)
  {
    var keys, values := InternalKeys(columns), InternalValues(columns);
    var n := |columns|;
    var m := Puts(keys, values, n);
    PutsKeys(keys, values, n);
    assert keys[..n] == keys;
    PutsEntries(keys, values, n, (k: string, v: string) => exists j :: 0 <= j < n && keys[j] == k && values[j] == v);
    forall i | 0 <= i < n
      ensures Lower(columns[i].1) in m
    {
      assert keys[i] in keys[..n];
    }
    forall x | x in m
      ensures Lower(m[x]) == x
    {
      var j :| 0 <= j < n && keys[j] == x && values[j] == m[x];
    }
    if DistinctInternalNames(columns) {
      forall i | 0 <= i < n
        ensures m[Lower(columns[i].1)] == columns[i].1
      {
        var x := Lower(columns[i].1);
        assert keys[i] in keys[..n];
        var j :| 0 <= j < n && keys[j] == x && values[j] == m[x];
      }
    }
  }

  /** supportedColumnsLowerCaseMap after putAll(internalNamesLowerCaseMap): on a shared key
      the internal-names entry wins. */
  function AliasMap(lowered: map<string, string>, columns: seq<Column>): map<string, string>
  {
    lowered + Puts(InternalKeys(columns), InternalValues(columns), |columns|)
  }

  /** A header list built from a map: each key followed by its value, every key once, in
      the map's iteration order. */
  ghost predicate ColumnList(list: seq<string>, m: map<string, string>)
  {
    && |list| == 2 * |m|
    && (forall i :: 0 <= i < |m| ==> list[2 * i] in m && list[2 * i + 1] == m[list[2 * i]])
    && (forall i, j :: 0 <= i < j < |m| ==> list[2 * i] != list[2 * j])
    && (forall x :: x in list <==> x in m.Keys || x in m.Values)
  }

  /** Each key followed by its value, in the order of keys. */
  ghost function PairsOf(keys: seq<string>, m: map<string, string>): seq<string>
    requires forall i :: 0 <= i < |keys| ==> keys[i] in m
  {
    if keys == [] then [] else PairsOf(keys[..|keys| - 1], m) + [keys[|keys| - 1], m[keys[|keys| - 1]]]
  }

  lemma {:induction false} PairsOfIndex(keys: seq<string>, m: map<string, string>)
    requires forall i :: 0 <= i < |keys| ==> keys[i] in m
    ensures |PairsOf(keys, m)| == 2 * |keys|
    ensures forall i :: 0 <= i < |keys| ==> PairsOf(keys, m)[2 * i] == keys[i] && PairsOf(keys, m)[2 * i + 1] == m[keys[i]]
  {
    if keys != [] {
      var init := keys[..|keys| - 1];
      PairsOfIndex(init, m);
      assert forall i :: 0 <= i < |init| ==> PairsOf(keys, m)[2 * i] == PairsOf(init, m)[2 * i];
    }
  }

  lemma {:induction false} PairsOfElements(keys: seq<string>, m: map<string, string>)
    requires forall i :: 0 <= i < |keys| ==> keys[i] in m
    ensures forall x :: x in PairsOf(keys, m) <==> x in keys || exists i :: 0 <= i < |keys| && m[keys[i]] == x
  {
    if keys != [] {
      var init := keys[..|keys| - 1];
      PairsOfElements(init, m);
      assert keys == init + [keys[|keys| - 1]];
    }
  }

  /** The forEach over a map: each step picks any key not yet visited, in no fixed order,
      and adds that key and its value. */
  method VisitEntries(m: map<string, string>) returns (list: seq<string>, ghost keys: seq<string>)
    ensures |keys| == |m| && (forall k :: k in keys <==> k in m)
    ensures forall i, j :: 0 <= i < j < |keys| ==> keys[i] != keys[j]
    ensures list == PairsOf(keys, m)
  {
    list := [];
    var rest := m.Keys;
    keys := [];
    while rest != {}
      invariant rest <= m.Keys && |keys| + |rest| == |m|
      invariant forall k :: k in keys ==> k in m && k !in rest
      invariant forall k :: k in m ==> k in rest || k in keys
      invariant forall i, j :: 0 <= i < j < |keys| ==> keys[i] != keys[j]
      invariant list == PairsOf(keys, m)
      decreases |rest|
    {
      var k :| k in rest;
      list := list + [k, m[k]];
      assert (keys + [k])[..|keys|] == keys;
      keys := keys + [k];
      rest := rest - {k};
    }
  }

  /** supportedColumnsList: the forEach over the lower-cased map adds each key, then its
      value. */
  method SupportedColumnsList(m: map<string, string>) returns (list: seq<string>)
    ensures ColumnList(list, m)
  {
    ghost var keys;
    list, keys := VisitEntries(m);
    PairsOfIndex(keys, m);
    PairsOfElements(keys, m);
    forall x | x in m.Values ensures x in list {
      var k :| k in m && m[k] == x;
      var i :| 0 <= i < |keys| && keys[i] == k;
    }
  }

  /** The alias map's keys are exactly the lowered external names and the lowered internal
      names, and its values are internal names. */
  lemma AliasMapKeys(columns: seq<Column>)
    requires LowerKeyMap(columns).Ok?
    ensures var a := AliasMap(LowerKeyMap(columns).value, columns);
      && (forall i :: 0 <= i < |columns| ==> Lower(columns[i].0) in a && Lower(columns[i].1) in a)
      && (forall x :: x in a ==> (x in ExternalKeys(columns) || x in InternalKeys(columns)) && a[x] in InternalValues(columns))
  {
    var n := |columns|;
    var ext, keys, values := ExternalKeys(columns), InternalKeys(columns), InternalValues(columns);
    CollectUniqueMeaning(ext, values, n);
    assert ext[..n] == ext && keys[..n] == keys;
    PutsKeys(keys, values, n);
    PutsEntries(keys, values, n, (k: string, v: string) => v in values);
    var lowered := LowerKeyMap(columns).value;
    forall x | x in lowered ensures lowered[x] in values {
      var i :| 0 <= i < n && ext[i] == x;
    }
    forall i | 0 <= i < n ensures Lower(columns[i].0) in lowered && Lower(columns[i].1) in keys {
      assert ext[i] == Lower(columns[i].0) && keys[i] == Lower(columns[i].1);
    }
  }

  /** A lowered external name that no internal name lowers to keeps its own entry's
      internal name. */
  lemma AliasMapExternal(columns: seq<Column>)
    requires LowerKeyMap(columns).Ok?
    ensures var a := AliasMap(LowerKeyMap(columns).value, columns);
      forall i :: 0 <= i < |columns| && Lower(columns[i].0) !in InternalKeys(columns)
                  ==> Lower(columns[i].0) in a && a[Lower(columns[i].0)] == columns[i].1
  {
    var n := |columns|;
    var ext, keys, values := ExternalKeys(columns), InternalKeys(columns), InternalValues(columns);
    CollectUniqueMeaning(ext, values, n);
    assert keys[..n] == keys;
    PutsKeys(keys, values, n);
    forall i | 0 <= i < n ensures ext[i] == Lower(columns[i].0) {
    }
  }

  /** On a lowered internal name the internal-names entry wins: it holds an internal name
      that lowers to it, the entry's own name when internal names do not differ only in
      case. */
  lemma AliasMapInternal(columns: seq<Column>)
    requires LowerKeyMap(columns).Ok?
    ensures var a := AliasMap(LowerKeyMap(columns).value, columns);
      && (forall x :: x in a && x in InternalKeys(columns) ==> Lower(a[x]) == x)
      && (DistinctInternalNames(columns) ==>
            forall i :: 0 <= i < |columns| ==> Lower(columns[i].1) in a && a[Lower(columns[i].1)] == columns[i].1)
  {
    var n := |columns|;
    var keys, values := InternalKeys(columns), InternalValues(columns);
    InternalNamesMeaning(columns);
    assert keys[..n] == keys;
    PutsKeys(keys, values, n);
  }

  /** The allowed header list built from the config holds every lowered external name and
      every lowered internal name; every internal name itself when internal names do not
      differ only in case; and nothing else. */
  lemma AllowedColumnsFromConfig(columns: seq<Column>, list: seq<string>)
    requires LowerKeyMap(columns).Ok?
    requires ColumnList(list, AliasMap(LowerKeyMap(columns).value, columns))
    ensures forall i :: 0 <= i < |columns| ==> Lower(columns[i].0) in list && Lower(columns[i].1) in list
    ensures DistinctInternalNames(columns) ==> forall i :: 0 <= i < |columns| ==> columns[i].1 in list
    ensures forall x :: x in list ==> x in ExternalKeys(columns) || x in InternalKeys(columns) || x in InternalValues(columns)
  {
    var a := AliasMap(LowerKeyMap(columns).value, columns);
    AliasMapKeys(columns);
    AliasMapInternal(columns);
    if DistinctInternalNames(columns) {
      forall i | 0 <= i < |columns| ensures columns[i].1 in list {
        assert a[Lower(columns[i].1)] in a.Values;
      }
    }
    forall x | x in list ensures x in ExternalKeys(columns) || x in InternalKeys(columns) || x in InternalValues(columns) {
      if x !in a.Keys {
        var k :| k in a && a[k] == x;
      }
    }
  }

  /** The orgProfileConfig "csv" setting: the supportedColumns map (as its entries in
      iteration order) and the mandatoryColumns list, either of which may be absent. */
  datatype OrgConfig = OrgConfig(supportedColumns: Option<seq<Column>>, mandatoryColumns: Option<seq<string>>)

  /** The arguments upload passes to validateFileHeaderFields and on to parsing. */
  datatype HeaderRule = HeaderRule(allowed: seq<string>, toLower: bool, mandatory: Option<seq<string>>,
                                   aliases: Option<map<string, string>>)

  /** The rule upload derives from the config: with no config the static allowed fields,
      matched case-sensitively with no mandatory columns and no alias map; with a config,
      a list and alias map built from its supported columns, case-folded matching and its
      mandatory columns. A config without supported columns dereferences null; a clash of
      lowered external names makes Collectors.toMap throw. */
  ghost predicate RuleFor(config: Option<OrgConfig>, bulkOrgAllowedFields: seq<string>, r: Attempt<HeaderRule>)
  {
    && (config.None? ==> r == Ok(HeaderRule(bulkOrgAllowedFields, false, None, None)))
    && (config.Some? && config.value.supportedColumns.None? ==> r == Threw(Unexpected(NULL_DEREF)))
    && (config.Some? && config.value.supportedColumns.Some? ==>
          var columns := config.value.supportedColumns.value;
          match LowerKeyMap(columns)
          case Threw(e) => r == Threw(e)
          case Ok(lowered) =>
            && r.Ok? && r.value.toLower && r.value.mandatory == config.value.mandatoryColumns
            && r.value.aliases == Some(AliasMap(lowered, columns))
            && ColumnList(r.value.allowed, AliasMap(lowered, columns)))
  }

  /** The supported-column handling of upload. */
  method HeaderRuleFor(config: Option<OrgConfig>, bulkOrgAllowedFields: seq<string>) returns (r: Attempt<HeaderRule>)
    ensures RuleFor(config, bulkOrgAllowedFields, r)
  {
    if config.None? {
      return Ok(HeaderRule(bulkOrgAllowedFields, false, None, None));
    }
    if config.value.supportedColumns.None? {
      return Threw(Unexpected(NULL_DEREF));
    }
    var columns := config.value.supportedColumns.value;
    var collected := LowerKeyMap(columns);
    if collected.Threw? {
      return Threw(collected.error);
    }
    var internal := InternalNamesLowerCase(columns);
    var aliases := collected.value + internal;
    var list := SupportedColumnsList(aliases);
    r := Ok(HeaderRule(list, true, config.value.mandatoryColumns, Some(aliases)));
  }

  /** BulkUploadActorOperation.ORG_BULK_UPLOAD_BACKGROUND_JOB, the operation the background
      actor is started with. */
  const ORG_BULK_UPLOAD_BACKGROUND_JOB: string := "orgBulkUploadBackground"

  /** getUser: the search result is returned whenever it is non-null, even when empty;
      a null result is dereferenced by result.size(), so the null branch cannot return. */
  function GetUser(result: Option<Record>): (r: Attempt<Record>)
    ensures r.Ok? <==> result.Some?
    ensures r.Ok? ==> r.value == result.value
    ensures r.Threw? ==> r.error == Unexpected(NULL_DEREF)
  {
    match result
    case None => Threw(Unexpected(NULL_DEREF))
    case Some(user) => Ok(user)
  }

  /** getOrg: the search result only when it is non-null and non-empty. */
  function GetOrg(result: Option<Record>): (r: Option<Record>)
    ensures r.Some? <==> result.Some? && |result.value| > 0
    ensures r.Some? ==> r.value == result.value
  {
    if result.Some? && |result.value| > 0 then result else None
  }

  /** The additionalInfo map processOrgBulkUpload builds: CHANNEL, holding the root org's
      channel (possibly null), when the user search finds a record, the search for its
      root org finds a non-empty record, and that org's status is null or ACTIVE. A
      missing user record, a root org id that is not a string and a status that is not
      an int throw. The search services are oracles from id to result. */
  function AdditionalInfo(createdBy: Option<string>, userSearch: Option<string> -> Option<Record>,
                          orgSearch: Option<string> -> Option<Record>): (r: Attempt<Record>)
    ensures r.Ok? ==> r.value.Keys <= {CHANNEL}
  {
    match GetUser(userSearch(createdBy))
    case Threw(e) => Threw(e)
    case Ok(user) =>
      match StringField(user, ROOT_ORG_ID)
      case Threw(e) => Threw(e)
      case Ok(rootOrgId) =>
        match GetOrg(orgSearch(rootOrgId))
        case None => Ok(map[])
        case Some(org) =>
          match Get(org, STATUS)
          case Null => Ok(map[CHANNEL := Get(org, CHANNEL)])
          case Num(n) => if n == ACTIVE then Ok(map[CHANNEL := Get(org, CHANNEL)]) else Ok(map[])
          case _ => Threw(Unexpected(CLASS_CAST))
  }

  /** The org's status reads as null or ACTIVE. */
  predicate ActiveOrUnset(org: Record)
  {
    Get(org, STATUS) == Null || Get(org, STATUS) == Num(ACTIVE)
  }

  /** CHANNEL is attached iff the user is found, its root org is found non-empty and that
      org's status is null or ACTIVE; it then holds the org's channel. */
  lemma ChannelRule(createdBy: Option<string>, userSearch: Option<string> -> Option<Record>,
                    orgSearch: Option<string> -> Option<Record>)
    ensures var r := AdditionalInfo(createdBy, userSearch, orgSearch);
      (r.Ok? && CHANNEL in r.value)
      <==> (&& userSearch(createdBy).Some?
            && StringField(userSearch(createdBy).value, ROOT_ORG_ID).Ok?
            && var org := orgSearch(StringField(userSearch(createdBy).value, ROOT_ORG_ID).value);
               org.Some? && |org.value| > 0 && ActiveOrUnset(org.value))
    ensures var r := AdditionalInfo(createdBy, userSearch, orgSearch);
      r.Ok? && CHANNEL in r.value ==>
        r.value[CHANNEL] == Get(orgSearch(StringField(userSearch(createdBy).value, ROOT_ORG_ID).value).value, CHANNEL)
    ensures userSearch(createdBy).None? ==> AdditionalInfo(createdBy, userSearch, orgSearch) == Threw(Unexpected(NULL_DEREF))
  {
  }

  /** The job record as processOrgBulkUpload fails it when no channel is found. */
  function NoRootOrgFailure(process: Process): (p: Process)
    ensures p.status == Some(FAILED) && p.failureResult == Some(MessageOf(ErrorNoRootOrgAssociated))
    ensures p.(status := process.status, failureResult := process.failureResult) == process
  {
    process.(status := Some(FAILED), failureResult := Some(MessageOf(ErrorNoRootOrgAssociated)))
  }

  /** The task-store calls validateAndParseRecords makes for the org rows: the created
      tasks in batches of the configured size, the last one only when parsing completes. */
  ghost predicate BatchedAsParsed(calls: seq<StoreCall>, input: CsvInput, skip: seq<string> -> bool, processId: string,
                                  aliases: Option<map<string, string>>, info: Record, batchConfig: Option<string>)
  {
    var created := ExpectedTasks(processId, Kept(input.rows, skip), RowMapper(aliases, true, info));
    var n := EffectiveBatchSize(GetBatchSize(batchConfig));
    Batches(calls) == if input.failure.None? then Chunks(created, n) else FullChunks(created, n)
  }

  /** processOrgBulkUpload: decides the channel; without one the job is failed and a client
      error thrown before any row is parsed; otherwise the rows are parsed with the alias
      map, lower-casing on and the channel as constant field, and the returned count
      becomes the job's task count before the background job starts. */
  method ProcessOrgBulkUpload(input: CsvInput, skip: seq<string> -> bool, processId: string, process: Process,
                              aliases: Option<map<string, string>>, createdBy: Option<string>,
                              userSearch: Option<string> -> Option<Record>, orgSearch: Option<string> -> Option<Record>,
                              batchConfig: Option<string>, bulkOrgAllowedFields: seq<string>,
                              tasks: TaskStore, processes: ProcessStore)
    returns (r: Attempt<BackgroundRequest>)
    modifies tasks, processes
    ensures var info := AdditionalInfo(createdBy, userSearch, orgSearch);
      info.Threw? ==>
        r == Threw(info.error) && processes.writes == old(processes.writes) && tasks.calls == old(tasks.calls)
    ensures var info := AdditionalInfo(createdBy, userSearch, orgSearch);
      info.Ok? && CHANNEL !in info.value ==>
        && r == Threw(ErrorNoRootOrgAssociated)
        && processes.writes == old(processes.writes) + [Updated(NoRootOrgFailure(process))]
        && tasks.calls == old(tasks.calls)
    ensures var info := AdditionalInfo(createdBy, userSearch, orgSearch);
      info.Ok? && CHANNEL in info.value ==>
        && |tasks.calls| >= |old(tasks.calls)| && tasks.calls[..|old(tasks.calls)|] == old(tasks.calls)
        && BatchedAsParsed(tasks.calls[|old(tasks.calls)|..], input, skip, processId, aliases, info.value, batchConfig)
        && (input.failure.Some? ==>
              && r == Threw(Unexpected(input.failure.value))
              && processes.writes == old(processes.writes)
                 + [Updated(GetBulkUploadProcessForFailedStatus(processId, FAILED, Unexpected(input.failure.value)))])
        && (input.failure.None? ==>
              && r == Ok(BackgroundRequest(processId, ORG_BULK_UPLOAD_BACKGROUND_JOB, bulkOrgAllowedFields))
              && processes.writes == old(processes.writes)
                 + [Updated(process.(taskCount := Some(|Kept(input.rows, skip)| - 1)))])
  {
    var info := AdditionalInfo(createdBy, userSearch, orgSearch);
    if info.Threw? {
      return Threw(info.error);
    }
    if CHANNEL !in info.value {
      processes.Update(NoRootOrgFailure(process));
      return Threw(ErrorNoRootOrgAssociated);
    }
    var count := ValidateAndParseRecords(input, skip, processId, info.value, aliases, true, batchConfig, tasks, processes);
    if count.Threw? {
      return Threw(count.error);
    }
    var updated, request := ProcessBulkUpload(processes, count.value, processId, process,
                                              ORG_BULK_UPLOAD_BACKGROUND_JOB, bulkOrgAllowedFields);
    r := Ok(request);
  }

  /** The verdict of validateFileHeaderFields under a rule; a rule without alias map has
      no mandatory columns either, so the empty map stands in for null. */
  function RuleVerdict(rule: HeaderRule, input: CsvInput, skip: seq<string> -> bool): Check
  {
    FileHeaderVerdict(input, skip, rule.allowed, false, rule.toLower, rule.mandatory, rule.aliases.GetOr(map[]))
  }

  /** The job record handleUpload creates for an organisation upload. */
  function OrgJob(processId: string, createdBy: Option<string>, userDetails: Attempt<Option<Record>>): Process
  {
    GetBulkUploadProcess(processId, ORGANISATION, createdBy, 0, userDetails)
  }

  /** The header stage of upload: the rule from the config, then validateFileHeaderFields
      under that rule. */
  method CheckUploadHeader(input: CsvInput, skip: seq<string> -> bool, config: Option<OrgConfig>,
                           bulkOrgAllowedFields: seq<string>)
    returns (header: Attempt<HeaderRule>, ghost rule: Attempt<HeaderRule>)
    ensures RuleFor(config, bulkOrgAllowedFields, rule)
    ensures rule.Threw? ==> header == rule
    ensures rule.Ok? && RuleVerdict(rule.value, input, skip).Fail? ==> header == Threw(RuleVerdict(rule.value, input, skip).error)
    ensures rule.Ok? && RuleVerdict(rule.value, input, skip).Pass? ==> header == rule
  {
    header := HeaderRuleFor(config, bulkOrgAllowedFields);
    rule := header;
    if header.Ok? {
      var h := header.value;
      var verdict := ValidateFileHeaderFields(input, skip, h.allowed, false, h.toLower, h.mandatory, h.aliases.GetOr(map[]));
      if verdict.Fail? {
        header := Threw(verdict.error);
      }
    }
  }

  /** The job stage of upload, once the header has passed: handleUpload creates the job
      record, then processOrgBulkUpload runs. */
  method StartJob(input: CsvInput, skip: seq<string> -> bool, aliases: Option<map<string, string>>,
                  bulkOrgAllowedFields: seq<string>, processId: string, createdBy: Option<string>,
                  userDetails: Attempt<Option<Record>>, userSearch: Option<string> -> Option<Record>,
                  orgSearch: Option<string> -> Option<Record>, batchConfig: Option<string>,
                  tasks: TaskStore, processes: ProcessStore)
    returns (r: Attempt<BackgroundRequest>)
    modifies tasks, processes
    ensures |processes.writes| > |old(processes.writes)|
    ensures processes.writes[..|old(processes.writes)| + 1] == old(processes.writes) + [Created(OrgJob(processId, createdBy, userDetails))]
    ensures r.Ok? ==>
      && input.failure.None?
      && r.value == BackgroundRequest(processId, ORG_BULK_UPLOAD_BACKGROUND_JOB, bulkOrgAllowedFields)
      && (var info := AdditionalInfo(createdBy, userSearch, orgSearch); info.Ok? && CHANNEL in info.value)
      && var job := OrgJob(processId, createdBy, userDetails);
         processes.writes == old(processes.writes)
           + [Created(job), Updated(job.(taskCount := Some(|Kept(input.rows, skip)| - 1)))]
  {
    var job := HandleUpload(processes, processId, ORGANISATION, createdBy, userDetails);
    ghost var created := processes.writes;
    if job.Threw? {
      return Threw(job.error);
    }
    r := ProcessOrgBulkUpload(input, skip, job.value.id, job.value, aliases, createdBy, userSearch, orgSearch,
                              batchConfig, bulkOrgAllowedFields, tasks, processes);
    assert processes.writes[..|created|] == created;
  }

  /** upload: derives the header rule from the config, validates the header, creates the
      job record and runs processOrgBulkUpload. A header that fails validation, or a
      config that throws, leaves no job record and no task behind. */
  method Upload(input: CsvInput, skip: seq<string> -> bool, config: Option<OrgConfig>, bulkOrgAllowedFields: seq<string>,
                processId: string, createdBy: Option<string>, userDetails: Attempt<Option<Record>>,
                userSearch: Option<string> -> Option<Record>, orgSearch: Option<string> -> Option<Record>,
                batchConfig: Option<string>, tasks: TaskStore, processes: ProcessStore)
    returns (r: Attempt<BackgroundRequest>, ghost rule: Attempt<HeaderRule>)
    modifies tasks, processes
    ensures RuleFor(config, bulkOrgAllowedFields, rule)
    ensures rule.Threw? ==>
      r == Threw(rule.error) && processes.writes == old(processes.writes) && tasks.calls == old(tasks.calls)
    ensures rule.Ok? && RuleVerdict(rule.value, input, skip).Fail? ==>
      && r == Threw(RuleVerdict(rule.value, input, skip).error)
      && processes.writes == old(processes.writes) && tasks.calls == old(tasks.calls)
    ensures rule.Ok? && RuleVerdict(rule.value, input, skip).Pass? ==>
      |processes.writes| > |old(processes.writes)|
      && processes.writes[|old(processes.writes)|] == Created(OrgJob(processId, createdBy, userDetails))
    ensures r.Ok? ==>
      && rule.Ok? && RuleVerdict(rule.value, input, skip).Pass?
      && input.failure.None?
      && r.value == BackgroundRequest(processId, ORG_BULK_UPLOAD_BACKGROUND_JOB, bulkOrgAllowedFields)
      && (var info := AdditionalInfo(createdBy, userSearch, orgSearch); info.Ok? && CHANNEL in info.value)
      && var job := OrgJob(processId, createdBy, userDetails);
         processes.writes == old(processes.writes)
           + [Created(job), Updated(job.(taskCount := Some(|Kept(input.rows, skip)| - 1)))]
  {
    var header;
    header, rule := CheckUploadHeader(input, skip, config, bulkOrgAllowedFields);
    if header.Threw? {
      return Threw(header.error), rule;
    }
    r := StartJob(input, skip, header.value.aliases, bulkOrgAllowedFields, processId, createdBy, userDetails,
                  userSearch, orgSearch, batchConfig, tasks, processes);
  }
}
