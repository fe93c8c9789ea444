# Slony-I change capture and replay, modelled in Dafny

Slony-I is a trigger-based master/slave replication system for PostgreSQL.
This project models the rules at its core and proves properties about them:

- **Change capture** (`_Slony_I_logTrigger`, module `Capture`). On the origin,
  each INSERT, UPDATE or DELETE on a replicated table is encoded as a log row.
  The row holds a flat array of (column name, value-or-NULL) pairs. For an
  UPDATE it also holds the count `cmdupdncols` of leading SET pairs.
- **Replay** (`_Slony_I_logApply`).
  - Module `Synthesis` rebuilds the SQL statement, its parameters and its
    nulls vector from a log row.
  - Modules `Lru` and `ApplyCache` model the per-transaction plan cache with
    least-recently-used eviction.
  - Module `Apply` models the trigger itself. It checks the calling
    conventions, flushes the cache when the transaction changes, and runs a
    DDL script row when the local node is on the script's node list. For a
    data row it prepares or reuses a plan and keeps the log row only when
    this node forwards the table's set.
- **Supporting pieces**:
  - identifier quoting (`slon_quote_identifier`, module `Quoting`);
  - trigger-argument splitting (`_slon_decode_tgargs`, module `TriggerArgs`);
  - the sequence tracker (`_Slony_I_seqtrack`, module `SeqTrack`);
  - slonik's growable string buffer (`SlonDString`, module `DString`);
  - the slon daemon's option handling and namespace quoting (module
    `SlonOptions`).

Code that changes state in place is modelled as methods and classes:

- the pointer-advancing array fills of the capture trigger;
- the query-buffer appends of the synthesiser;
- the cache list and hash table;
- the sequence table;
- the string buffer;
- the getopt loop.

Each of these is proved against a specification function. The properties
the source promises are then proved about those functions as lemmas.

The database is a parameter of the model. This covers:

- the column type lookup;
- the keyword list;
- `int4in`;
- the outcomes of `SPI_exec`, `SPI_prepare` and `SPI_execp`;
- the forwarding lookup;
- the type-specific equality operator;
- `SLON_INFO`;
- the option defaults.

## Model

| member | source | states |
|---|---|---|
| Common.NatToStringRoundTrip | src/backend/slony1_funcs.c:1210-1213 | the decimal text of a parameter number `$n` reads back as n |
| Common.NatToStringInjective | src/backend/slony1_funcs.c:1210-1213 | distinct parameter numbers give distinct placeholders |
| Quoting.QuoteIdent | src/backend/slony1_funcs.c:1645-1704 | the result is the identifier itself iff it starts with a-z or `_`, has only a-z, 0-9 and `_`, and is not a keyword; otherwise its length is len + nquotes + 2 |
| Quoting.QuoteIdentifier | src/backend/slony1_funcs.c:1627-1705 | the two-scan loop computes exactly `QuoteIdent` |
| Quoting.ScanIdent | src/backend/slony1_funcs.c:1645-1663 | the first scan decides safety as the predicate says and counts the double quotes |
| Quoting.WriteDelimited | src/backend/slony1_funcs.c:1689-1704 | the second scan writes `"`, the identifier with every `"` doubled, and `"` into a buffer of len + nquotes + 2 |
| Quoting.QuoteIdentRoundTrip | src/backend/slony1_funcs.c:1686-1704 | the SQL parser's reading of the quoted identifier gives back the identifier |
| Quoting.QuoteIdentInjective | src/backend/slony1_funcs.c:1627-1705 | distinct identifiers never quote to the same text |
| Quoting.DelimitedRoundTrip | src/backend/slony1_funcs.c:1689-1704 | a delimited identifier reads back as the text it delimits |
| Quoting.UndoubleDoubleQuotes | src/backend/slony1_funcs.c:1693-1700 | undoubling the doubled quotes gives back the text |
| TriggerArgs.DecodeTgArgsScan | src/backend/slony1_funcs.c:2089-2133 | the byte loop returns exactly the NUL-terminated runs of the input |
| TriggerArgs.DecodeEncode | src/backend/slony1_funcs.c:2104-2129 | decoding the catalog layout of NUL-free arguments gives them back; unterminated trailing bytes are dropped |
| TriggerArgs.DecodeCount | src/backend/slony1_funcs.c:2104-2129 | one argument comes out per NUL byte |
| TriggerArgs.SplitAppendNoNul | src/backend/slony1_funcs.c:2125-2128 | bytes without a NUL only grow the pending argument |
| Capture.LogTrigger | src/backend/slony1_funcs.c:311-716 | the trigger does nothing outside the origin role, checks its calling conventions in the source's order, and logs the encoding of the event |
| Capture.EncodeInsert | src/backend/slony1_funcs.c:444-481 | the pointer-advancing fill of a buffer of 2·natts+2 elements yields one (name, value) pair per live column, in column order |
| Capture.EncodeSetPairs | src/backend/slony1_funcs.c:506-604 | the first UPDATE pass fills the changed-column pairs, and cmdupdncols is their number |
| Capture.AppendKeyPairs | src/backend/slony1_funcs.c:609-635 | the key pass appends the key pairs after what is there, or fails on a NULL key |
| Capture.EncodeUpdate | src/backend/slony1_funcs.c:484-637 | an UPDATE logs the SET pairs then the key pairs, with cmdupdncols the number of SET pairs; it fails iff the key pass fails |
| Capture.EncodeDelete | src/backend/slony1_funcs.c:638-684 | a DELETE logs the key pairs alone |
| Capture.InsertRoundTrip | src/backend/slony1_funcs.c:452-481 | looking up any live column by name in an INSERT's pairs gives its new value, NULL included |
| Capture.SetLookup | src/backend/slony1_funcs.c:514-604 | the SET pairs name exactly the live columns that are not both NULL and not equal, each with its new value |
| Capture.UpdateRoundTrip | src/backend/slony1_funcs.c:514-604 | applying the SET pairs by name to the old row gives the new row, column by column |
| Capture.KeyPairsErr | src/backend/slony1_funcs.c:609-635 | the key pass fails iff some key column (a live column whose attkind position is 'k', before attkind ends) has a NULL old value, and the error names such a column |
| Capture.KeyLookup | src/backend/slony1_funcs.c:609-635 | a successful key pass sends exactly the key columns, each with its old value |
| Capture.CaptureWellFormed | src/backend/slony1_funcs.c:698-710 | every logged record has whole pairs with non-NULL names, command type I, U or D, and 0 <= cmdupdncols <= pairs, which is 0 unless the type is U |
| Synthesis.Synthesize | src/backend/slony1_funcs.c:1017-1339 | the switch on log_cmdtype computes the statement of `SynthesizeSpec`: INSERT, the UPDATE text as written (with `col = col` before every pair when cmdupdncols == 0, see Findings), DELETE, TRUNCATE, or the unknown-type error |
| Synthesis.BuildInsert | src/backend/slony1_funcs.c:1022-1131 | the INSERT passes write `INSERT INTO ns.rel (c1, ...) VALUES ($1::t1, ...);` and fill the parameters |
| Synthesis.BuildUpdate | src/backend/slony1_funcs.c:1132-1242 | the UPDATE loop writes the statement as written: `col = col` before every pair when cmdupdncols == 0, and the SET/WHERE boundary where 2j meets the wrapped int product cmdupdncols * 2 |
| Synthesis.SetCount | src/backend/slony1_funcs.c:1197-1222 | twice the SET count is the int32 value of cmdupdncols * 2 |
| Synthesis.SetCountNoWrap | src/backend/slony1_funcs.c:1197-1222 | below 2^30 in magnitude the SET count is cmdupdncols itself |
| Synthesis.SetCountWraps | src/backend/slony1_funcs.c:1197-1222 | cmdupdncols = 2^30 gives a SET count of -2^30 |
| Synthesis.BuildDelete | src/backend/slony1_funcs.c:1243-1308 | the DELETE loop writes `DELETE FROM ONLY ns.rel WHERE c1 = $1::t1 AND ...;` |
| Synthesis.BuildTruncate | src/backend/slony1_funcs.c:1309-1334 | the TRUNCATE call has the namespace and the table name as its two text parameters |
| Synthesis.PairTypesMeaning | src/backend/slony1_funcs.c:1095-1105 | each type found is the named column's type, and the lookup fails iff some pair has a NULL name or an unknown column |
| Synthesis.PairTypesErrWitness | src/backend/slony1_funcs.c:1168-1180 | a typing error is about a pair that really has a NULL name or an unknown column |
| Synthesis.SynthesizeErrors | src/backend/slony1_funcs.c:1058-1105 | an INSERT, UPDATE or DELETE fails iff some pair has a NULL column name or a column of unknown type |
| Synthesis.SynthesizeOtherTypes | src/backend/slony1_funcs.c:1309-1338 | an unknown command type is an error; a TRUNCATE always has exactly the two non-NULL parameters (nspname, relname) |
| Synthesis.SynthesizeParams | src/backend/slony1_funcs.c:1228-1239 | there is one parameter per pair, parameter j is pair j's value, and the nulls vector holds 'n' iff that value is NULL |
| Synthesis.UpdateBodyShape | src/backend/slony1_funcs.c:1197-1225 | for a positive SET count k, the pairs before k are comma-separated SET items, then ` WHERE `, then the rest joined by ` AND ` |
| Synthesis.UpdateBodyAllAnd | src/backend/slony1_funcs.c:1197-1225 | for a negative SET count (cmdupdncols negative, or from 2^30 up), every pair, the first included, follows ` AND `, and there is no SET item and no WHERE |
| Synthesis.UpdateBodyAgrees | src/backend/slony1_funcs.c:1185-1225 | the loop as written and the corrected one give the same text unless cmdupdncols == 0 with two or more pairs |
| Synthesis.UpdateBodyAsWrittenLonger | src/backend/slony1_funcs.c:1185-1201 | with cmdupdncols == 0 and two or more pairs, the text as written is longer than the corrected one |
| Synthesis.UpdateNoChangeTwoKeys | src/backend/slony1_funcs.c:1185-1201 | the concrete statement as written for a no-change UPDATE with a two-column key |
| Synthesis.FixedUpdateBodyNoSet | src/backend/slony1_funcs.c:1182-1201 | the corrected text for cmdupdncols == 0 is `k = k WHERE` followed by every pair |
| Lru.Remove | src/backend/slony1_funcs.c:1364-1371 | unlinking k keeps exactly the other keys, and no more of them |
| Lru.RemoveUnlinks | src/backend/slony1_funcs.c:1364-1371 | in a list without duplicates, unlinking k removes its one position i and keeps the others in order: the result is s[..i] + s[i+1..] |
| Lru.RunIsLeastRecentlyUsed | src/backend/slony1_funcs.c:1349-1447 | after any lookups since a flush, the list holds the `size` most recently used distinct keys, oldest first; it has min(applyCacheUsed, size) entries; applyCacheUsed is at least the number of distinct keys |
| Lru.RunKeepsLastKey | src/backend/slony1_funcs.c:1407-1447 | the key just looked up is at the tail, so a missed key survives its own insertion |
| Lru.StepSummarises | src/backend/slony1_funcs.c:1351-1447 | one lookup keeps the list in agreement with the recency order of the lookups |
| ApplyCache.Cache.constructor | src/backend/slony1_funcs.c:147-151 | the cache starts empty, with a count of 0 |
| ApplyCache.Cache.Flush | src/backend/slony1_funcs.c:843-866 | a flush empties the list and the hash table and resets the count |
| ApplyCache.Cache.Probe | src/backend/slony1_funcs.c:1349-1391 | a hit returns the entry and moves the key to the tail, changing no entry; a miss changes nothing |
| ApplyCache.Cache.Insert | src/backend/slony1_funcs.c:1393-1447 | a miss appends the entry and counts it; when the count exceeds the size, the head is dropped from both the list and the hash table |
| ApplyCache.InsertKeys | src/backend/slony1_funcs.c:1428-1447 | the hash table and the list hold the same keys after an insertion, with or without eviction |
| Apply.ScanNodeList | src/backend/slony1_funcs.c:911-924 | the node-list loop, leaving at the first match, computes `ScriptRuns` |
| Apply.NodeListFromMeaning | src/backend/slony1_funcs.c:911-924 | the scan finds the node iff some element spells the local node id and every element before it is another valid id; it fails iff an element that is not a number comes first; otherwise it finds nothing |
| Apply.ScriptRunsMeaning | src/backend/slony1_funcs.c:905-930 | a script runs iff it has no node list or the local node id is on it |
| Apply.NonReplicaKeepsRow | src/backend/slony1_funcs.c:806-814 | outside the replica role the row is kept and the cache is not touched |
| Apply.ScriptRowSuppressed | src/backend/slony1_funcs.c:884-965 | a script row is never kept; it succeeds iff its node list can be read, its DDL (when it runs) succeeds and the sl_log_script insert succeeds |
| Apply.DataRowKeptIffForward | src/backend/slony1_funcs.c:1464-1483 | a replayed data row is kept iff its plan's forward flag is set |
| Apply.CachedPlanIgnoresLookup | src/backend/slony1_funcs.c:1449-1466 | for a cached statement, neither the prepare nor the forwarding lookup affects the result |
| Apply.ClusterStatus.ApplyScript | src/backend/slony1_funcs.c:884-965 | the script path returns the specified result and invalidates currentXid iff the DDL ran |
| Apply.ClusterStatus.ReadStatement | src/backend/slony1_funcs.c:967-1017 | reading the row's columns and the target table yields the specified statement or error |
| Apply.ClusterStatus.ApplyData | src/backend/slony1_funcs.c:1349-1483 | the data path returns the specified result; the statement's key is added to the lookup trace; a hit leaves its entry as it was, a miss stores a plan for the statement with the looked-up forward flag; every other entry stays as it was or is evicted |
| Apply.ClusterStatus.LogApply | src/backend/slony1_funcs.c:767-1484 | the result is `ApplySpec` over the plans cached after the per-transaction flush; currentXid becomes the transaction id, or invalid after a script that ran; the trace grows by the statement used; the statement's entry is the cached one or a new plan with the looked-up forward flag, and every other cached entry stays as it was or is evicted |
| SeqTrack.Tracker.Track | src/backend/slony1_funcs.c:1572-1616 | the call's result and the new table are those of `Observe` |
| SeqTrack.FirstCallReports | src/backend/slony1_funcs.c:1590-1602 | the first call for an id stores and returns the value |
| SeqTrack.LaterCallReportsChange | src/backend/slony1_funcs.c:1608-1615 | a later call returns NULL iff the value is unchanged, otherwise stores and returns it |
| SeqTrack.OthersUnaffected | src/backend/slony1_funcs.c:1587-1615 | other ids are never affected |
| SeqTrack.ObserveAllHoldsLastValues | src/backend/slony1_funcs.c:1572-1616 | after any calls, the table holds exactly the ids called, each with the value of its last call |
| SeqTrack.CallReportedIffMoved | src/backend/slony1_funcs.c:1608-1615 | a call returns NULL iff the previous call for the id carried the same value |
| Common.Wrap32 | src/backend/slony1_funcs.c:1563 | the 32-bit result of the subtraction is in range and congruent to the exact difference |
| SeqTrack.CmpAsWrittenNotAntisymmetric | src/backend/slony1_funcs.c:1560-1564 | as written, 2147483647 and -1 each compare less than the other |
| SeqTrack.CmpOrdersIds | src/backend/slony1_funcs.c:1560-1564 | the corrected comparison orders ids like integers and agrees with the subtraction wherever it does not wrap |
| DString.Buffer.constructor | src/slonik/slonik.h:198-207 | dstring_init: capacity 256, empty |
| DString.Buffer.Init | src/slonik/slonik.h:198-207 | re-initialising gives capacity 256 and empty text |
| DString.Buffer.Reset | src/slonik/slonik.h:208-212 | dstring_reset empties the text and writes a NUL at 0, keeping the capacity |
| DString.Buffer.Free | src/slonik/slonik.h:213-218 | dstring_free drops the block and clears n_used, leaving n_alloc |
| DString.Buffer.Realloc | src/slonik/slonik.h:225 | the grown block keeps the old bytes |
| DString.Buffer.NAppend | src/slonik/slonik.h:219-234 | the text becomes old text + s, n_used grows by n, the capacity is the doubling `Grown`, and n_used < n_alloc still holds |
| DString.GrownMeaning | src/slonik/slonik.h:221-224 | the capacity only doubles, stops at the first size with room for the text and a NUL, and stays below twice the need |
| DString.StrLen | src/slonik/slonik.h:237 | strlen counts the bytes before the first NUL |
| DString.Buffer.Append | src/slonik/slonik.h:235-239 | dstring_append is nappend of the bytes before the first NUL |
| DString.Buffer.AddChar | src/slonik/slonik.h:240-253 | exactly one character is appended, after at most one doubling |
| DString.Buffer.Terminate | src/slonik/slonik.h:254-257 | a NUL is written at n_used, in bounds, and the text is unchanged |
| SlonOptions.DebugOption | src/slon/slon.c:79-87 | -d outside 0..4 counts an error; the stored level is the argument plus SLON_INFO |
| SlonOptions.SyncOption | src/slon/slon.c:89-102 | -s outside 100..60000 counts an error; in range and without an earlier -g, the group size becomes min(60000 / interval, 100) |
| SlonOptions.TimeoutOption | src/slon/slon.c:104-111 | -t stores the timeout; its check tests the SYNC interval, as written |
| SlonOptions.GroupOption | src/slon/slon.c:113-120 | -g outside 1..100 counts an error and marks the group size as set |
| SlonOptions.GroupSizeSticky | src/slon/slon.c:95-100 | once -g is seen, no later option other than -g changes the group size |
| SlonOptions.ErrorsCount | src/slon/slon.c:122-131 | the error count never falls, and -h or an unknown option makes it positive |
| SlonOptions.NoVersionParses | src/slon/slon.c:125-127 | without -v the getopt loop always reaches its end |
| SlonOptions.UsageCases | src/slon/slon.c:135-148 | anything other than two positional arguments, -h or an unknown option makes main return 1 |
| SlonOptions.FixTimeoutMeaning | src/slon/slon.c:153-154 | after the fix-up the timeout is 0 or above the interval, and a valid timeout is left alone |
| SlonOptions.NamespaceIsDelimited | src/slon/slon.c:162-173 | the namespace is the delimited identifier of `_` + cluster name, it reads back as that, and it fits with its NUL in 2·len+4 bytes |
| SlonOptions.BuildNamespace | src/slon/slon.c:162-173 | the pointer loop into the 2·len+4 buffer builds exactly `Namespace` |
| SlonOptions.Slon.ParseOptions | src/slon/slon.c:75-133 | the getopt loop leaves the globals, error count and group-size flag of `ParseAll` |
| SlonOptions.Slon.StartUp | src/slon/slon.c:75-173 | main's argument handling ends in the version exit, the usage exit or the start with the settings of `StartSpec` |

## Left out

- Database and host plumbing is not modelled:
  - SPI_connect and SPI_finish;
  - getClusterStatus and the plan-preparation SQL, including prepareLogPlan and the log_status read and switch;
  - the DateStyle save and restore;
  - palloc, realloc and the self-pointer sanity check.
  Their outcomes are parameters where they decide anything.
- The MD5 digest is not modelled. The cache key is the statement text itself, so digest collisions are not covered.
- The doubly linked list is modelled as a sequence of keys and the hash table as a map. Pointer aliasing inside the list is not captured.
- The cache is a field of each `ClusterStatus`, not a process-wide global.
- Only logApply calls are modelled for `currentXid`. In the source, logTrigger and createEvent also store `cs->currentXid`, and can make a later logApply skip its flush.
- Apply.ClusterStatus.LogApply:
  - After a failed SPI_prepare or a failed forwarding lookup, the model leaves the cache as it was. The source has already done HASH_ENTER on the key (slony1_funcs.c:1349). After a failed lookup it has also linked the entry at the tail, counted it and possibly evicted the head (1402-1445), and the entry's forward flag was never set.
  - The forwarding lookup is modelled before the new entry is inserted. The source inserts first.
  - Both differences are visible only when the caller catches the error in a subtransaction. The top-level xid is then unchanged, so there is no flush (843). The next row with the same statement finds the half-built entry. After a failed prepare the source then fails the self check at 1357. After a failed lookup it reuses the entry with its unset forward flag. The model prepares the statement again in both cases.
- Synthesis: cmdupdncols is an unbounded integer. Its int32 width is not modelled, but its product with 2 wraps as in the source.
- Apply.RowFits:
  - A script row's argument array must be non-empty with no NULL element. The source reads element 0 and calls `textout` on each element without checking.
  - A data row's array must have an even length. The source would read past the array.
- TriggerArgs: the `text` element built for each argument is the byte sequence itself.
- TriggerArgs: the SQL array is filled by array_set at subscripts 0, 1, ... and so has lower bound 0. The model's sequence does not record the lower bound.
- DString.Buffer.NAppend:
  - The capacity is an unbounded integer. size_t overflow of the doubling loop is not modelled.
  - The `int` truncation of strlen in dstring_append is not modelled.
  - realloc and malloc failure, which exit the process, are not modelled.
- DString.Buffer: after dstring_free, the operations other than Init require a live block. The source dereferences `data` in reset, addchar and terminate, and in an append that fits. An append of at least n_alloc bytes after dstring_free would go through realloc(NULL, ...), which allocates and works in the source; the model excludes that path too. The callers in slon.c free a buffer only before exiting or re-initialising it.
- SlonOptions:
  - strtol is abstracted: option arguments are the integers it reads.
  - The usage text, the version string and getpid are not modelled.
  - Everything in main after the namespace is built (configuration, threads, restart) is not modelled.
- SeqTrack.Tracker: the AVL tree is a map, so it does not inherit the broken ordering of the comparison as written (see Findings). seqval's 64-bit width is not modelled.
- Capture:
  - The type-specific equality operator and the string comparison fallback are one abstract column equality.
  - The strtol of the table id, the namein of the cluster name and the `SPI_execp` into the active log table are not modelled.
- denyAccess, lockedSet, createEvent, killBackend and resetSession are outside the core and are not modelled. cleanup_thread.c and monitor_thread.c are not part of this model.

## Findings

| source | as written | input that shows it | evidently intended | confidence | as-written member | corrected member |
|---|---|---|---|---|---|---|
| src/backend/slony1_funcs.c:1185-1201 | with cmdupdncols == 0, the loop writes `col = col` before every pair, not just the first, and with no separator | an UPDATE that changed no column on a table with key (a, b), where both columns are int4: the text is `UPDATE ONLY public.t SET a = a WHERE a = $1::int4b = b AND b = $2::int4;` | `SET a = a WHERE a = $1::int4 AND b = $2::int4;`, with the self-assignment written once | high (not executed) | Synthesis.UpdateNoChangeTwoKeys | Synthesis.FixedUpdateBodyNoSet |
| src/backend/slony1_funcs.c:1560-1564 | seqtrack_cmp returns the int32 difference of the two ids, which overflows | ids 2147483647 and -1: each compares less than the other | the sign of the comparison of the two ids | medium (not executed) | SeqTrack.CmpAsWrittenNotAntisymmetric | SeqTrack.CmpOrdersIds |
