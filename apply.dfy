/** The apply trigger (_Slony_I_logApply) on a subscriber: the BEFORE ROW
    trigger on sl_log_1/sl_log_2 that replays each replicated log row. A
    script row runs its DDL when this node is on the row's node list; a
    data row is turned into a parameterised statement, prepared once per
    transaction through the plan cache and executed, and the log row is kept
    only when this node forwards the table's set. */
module Apply {
  import opened Common
  import Capture
  import Synthesis
  import Lru
  import ApplyCache

  /** InvalidTransactionId. */
  const InvalidXid: int := 0

  /** The trigger call context. */
  datatype ApplyCall = ApplyCall(
    calledAsTrigger: bool, firedBefore: bool, forRow: bool, nargs: int, cluster: string)

  /** The columns of the log row being inserted. */
  datatype LogRow = LogRow(
    cmdtype: Option<char>, tableid: int, nspname: string, relname: string,
    cmdupdncols: Option<int>, cmdargs: Option<seq<Option<string>>>)

  /** What the database answers when the trigger calls into it. */
  datatype Db = Db(
    /** int4in: the node id a list element spells, None when it raises an error. */
    int4in: string -> Option<int>,
    /** SPI_exec of the DDL script succeeds. */
    ddlOk: bool,
    /** The insert into sl_log_script succeeds. */
    scriptLogOk: bool,
    /** The target relation's column type lookup, None when the table is not found. */
    relation: Option<Synthesis.TypeLookup>,
    /** The keyword list used by identifier quoting. */
    keywords: set<string>,
    /** SPI_prepare/SPI_saveplan succeeds. */
    prepareOk: bool,
    /** The sub_forward column of the rows the forwarding lookup returns, None when it fails. */
    forwardRows: Option<seq<bool>>,
    /** SPI_execp of the prepared statement succeeds. */
    execOk: bool)

  datatype ApplyError =
    | NotCalledAsTrigger
    | NotFiredBefore
    | NotFiredForRow
    | WrongArgCount
    | NullCmdtype
    | NullCmdargs
    | NullUpdncols
    | BadNodeId(text: string)
    | DdlFailed(script: string)
    | ScriptLogFailed
    | NoTable(nspname: string, relname: string)
    | Synth(e: Synthesis.SynthError)
    | PrepareFailed(query: string)
    | ForwardQueryFailed
    | ForwardLookupFailed(reported: int)
    | ExecFailed(query: string)

  /** The trigger returns the new tuple (the log row is kept) or NULL (it is not). */
  datatype Outcome = KeepRow | SuppressRow

  function Verdict(forward: bool): Outcome { if forward then KeepRow else SuppressRow }

  // ---------------------------------------------------------------------
  // The node list of a script row.
  // ---------------------------------------------------------------------

  /** A script row's argument array: the DDL text, then node ids, none NULL. */
  predicate ScriptArgsFit(args: seq<Option<string>>)
  {
    |args| >= 1 && forall i :: 0 <= i < |args| ==> args[i].Some?
  }

  /** The scan of the node list from element i: true at the first element
      that spells the local node id, an error at the first element before
      it that is not a number. */
  function NodeListFrom(args: seq<Option<string>>, i: nat, localNodeId: int, int4in: string -> Option<int>): Result<bool, ApplyError>
    requires ScriptArgsFit(args) && i <= |args|
    decreases |args| - i
  {
    if i == |args| then Ok(false)
    else match int4in(args[i].value)
      case None => Err(BadNodeId(args[i].value))
      case Some(n) => if n == localNodeId then Ok(true) else NodeListFrom(args, i + 1, localNodeId, int4in)
  }

  /** Whether a script row runs here: always when it has no node list. */
  function ScriptRuns(args: seq<Option<string>>, localNodeId: int, int4in: string -> Option<int>): Result<bool, ApplyError>
    requires ScriptArgsFit(args)
  {
    if |args| <= 1 then Ok(true) else NodeListFrom(args, 1, localNodeId, int4in)
  }

  /** Elements i .. k-1 are node ids other than the local one. */
  predicate OthersBefore(args: seq<Option<string>>, i: nat, k: nat, localNodeId: int, int4in: string -> Option<int>)
    requires ScriptArgsFit(args) && k <= |args|
  {
    forall j :: i <= j < k ==> int4in(args[j].value).Some? && int4in(args[j].value).value != localNodeId
  }

  /** The scan finds the local node exactly when some element spells it and
      every element before it is another node id, and fails exactly when the
      first element that is not another node id is not a number. */
  lemma {:induction false} NodeListFromMeaning(args: seq<Option<string>>, i: nat, localNodeId: int, int4in: string -> Option<int>)
    requires ScriptArgsFit(args) && i <= |args|
    ensures NodeListFrom(args, i, localNodeId, int4in) == Ok(true) <==>
      exists k :: i <= k < |args| && int4in(args[k].value) == Some(localNodeId) && OthersBefore(args, i, k, localNodeId, int4in)
    ensures NodeListFrom(args, i, localNodeId, int4in).Err? <==>
      exists k :: i <= k < |args| && int4in(args[k].value).None? && OthersBefore(args, i, k, localNodeId, int4in)
    ensures NodeListFrom(args, i, localNodeId, int4in) == Ok(false) <==> OthersBefore(args, i, |args|, localNodeId, int4in)
    decreases |args| - i
  {
    if i < |args| {
      NodeListFromMeaning(args, i + 1, localNodeId, int4in);
      var p := int4in(args[i].value);
      if p.Some? && p.value != localNodeId {
        ShiftOthers(args, i, localNodeId, int4in);
      }
    }
  }

  lemma ShiftOthers(args: seq<Option<string>>, i: nat, localNodeId: int, int4in: string -> Option<int>)
    requires ScriptArgsFit(args) && i < |args|
    requires int4in(args[i].value).Some? && int4in(args[i].value).value != localNodeId
    ensures forall k :: i + 1 <= k <= |args| ==>
      (OthersBefore(args, i, k, localNodeId, int4in) <==> OthersBefore(args, i + 1, k, localNodeId, int4in))
  {
  }

  /** A script row runs iff it has no node list or the local node id appears
      in it before any element that is not a number. */
  lemma ScriptRunsMeaning(args: seq<Option<string>>, localNodeId: int, int4in: string -> Option<int>)
    requires ScriptArgsFit(args)
    ensures ScriptRuns(args, localNodeId, int4in) == Ok(true) <==>
      |args| <= 1 ||
      exists k :: 1 <= k < |args| && int4in(args[k].value) == Some(localNodeId) && OthersBefore(args, 1, k, localNodeId, int4in)
    ensures ScriptRuns(args, localNodeId, int4in) == Ok(false) <==>
      |args| > 1 && OthersBefore(args, 1, |args|, localNodeId, int4in)
    ensures ScriptRuns(args, localNodeId, int4in).Err? <==>
      exists k :: 1 <= k < |args| && int4in(args[k].value).None? && OthersBefore(args, 1, k, localNodeId, int4in)
  {
    if |args| > 1 {
      NodeListFromMeaning(args, 1, localNodeId, int4in);
    }
  }

  /** The loop over the node list, leaving at the first match. */
  method ScanNodeList(args: seq<Option<string>>, localNodeId: int, int4in: string -> Option<int>)
    returns (r: Result<bool, ApplyError>)
    requires ScriptArgsFit(args)
    ensures r == ScriptRuns(args, localNodeId, int4in)
  {
    var localNodeFound := true;
    if |args| > 1 {
      localNodeFound := false;
      var i := 1;
      while i < |args|
        invariant 1 <= i <= |args|
        invariant NodeListFrom(args, 1, localNodeId, int4in) == NodeListFrom(args, i, localNodeId, int4in)
        invariant !localNodeFound
      {
        var nodeId := int4in(args[i].value);
        if nodeId.None? {
          return Err(BadNodeId(args[i].value));
        }
        if nodeId.value == localNodeId {
          localNodeFound := true;
          break;
        }
        i := i + 1;
      }
    }
    r := Ok(localNodeFound);
  }

  // ---------------------------------------------------------------------
  // What the trigger decides.
  // ---------------------------------------------------------------------

  /** The argument arrays the trigger can read: a script row's starts with
      its DDL text and has no NULL element; a data row's holds whole pairs. */
  predicate RowFits(row: LogRow)
  {
    row.cmdargs.Some? && row.cmdtype.Some? ==>
      (row.cmdtype.value == 'S' ==> ScriptArgsFit(row.cmdargs.value))
      && (row.cmdtype.value in "IUD" ==> |row.cmdargs.value| % 2 == 0)
  }

  /** The calling conventions hold and the session replays (replica role). */
  predicate Replays(role: Capture.Role, call: ApplyCall)
  {
    call.calledAsTrigger && role == Capture.Replica && call.firedBefore && call.forRow && call.nargs == 1
  }

  /** Whether a script row's DDL runs and succeeds (which invalidates
      currentXid). */
  predicate ScriptExecuted(row: LogRow, localNodeId: int, db: Db)
    requires RowFits(row)
  {
    row.cmdtype == Some('S') && row.cmdargs.Some?
    && ScriptRuns(row.cmdargs.value, localNodeId, db.int4in) == Ok(true) && db.ddlOk
  }

  function ScriptSpec(row: LogRow, localNodeId: int, db: Db): Result<Outcome, ApplyError>
    requires RowFits(row) && row.cmdtype == Some('S')
  {
    if row.cmdargs.None? then Err(NullCmdargs)
    else
      var args := row.cmdargs.value;
      match ScriptRuns(args, localNodeId, db.int4in)
      case Err(e) => Err(e)
      case Ok(runs) =>
        if runs && !db.ddlOk then Err(DdlFailed(args[0].value))
        else if !db.scriptLogOk then Err(ScriptLogFailed)
        else Ok(SuppressRow)
  }

  /** The statement a data row synthesises, once the row's columns and the
      target relation have been read. */
  function Statement(row: LogRow, cluster: string, db: Db): Result<Synthesis.Statement, ApplyError>
    requires RowFits(row) && row.cmdtype.Some? && row.cmdtype.value != 'S'
  {
    var c := row.cmdtype.value;
    if row.cmdupdncols.None? && c == 'U' then Err(NullUpdncols)
    else if row.cmdargs.None? then Err(NullCmdargs)
    else if db.relation.None? then Err(NoTable(row.nspname, row.relname))
    else
      var ncols := if row.cmdupdncols.Some? then row.cmdupdncols.value else 0;
      match Synthesis.SynthesizeSpec(c, cluster, row.nspname, row.relname, ncols, row.cmdargs.value, db.relation.value, db.keywords)
      case Err(e) => Err(Synth(e))
      case Ok(st) => Ok(st)
  }

  /** Running a synthesised statement with the plans cached at the start of
      the call: a cached plan brings its forward flag; a new one is prepared
      and the forward flag looked up. The error of a failed forwarding
      lookup reports the local node id where the table id is meant. */
  function RunStatement(sql: string, localNodeId: int, db: Db, cached: map<Lru.Key, ApplyCache.CacheEntry>): Result<Outcome, ApplyError>
  {
    if sql in cached then
      if !db.execOk then Err(ExecFailed(sql)) else Ok(Verdict(cached[sql].forward))
    else if !db.prepareOk then Err(PrepareFailed(sql))
    else if db.forwardRows.None? then Err(ForwardQueryFailed)
    else if |db.forwardRows.value| != 1 then Err(ForwardLookupFailed(localNodeId))
    else if !db.execOk then Err(ExecFailed(sql))
    else Ok(Verdict(db.forwardRows.value[0]))
  }

  /** What logApply returns for a log row, given the plans cached when the
      row reaches the cache (after the per-transaction flush). */
  function ApplySpec(role: Capture.Role, call: ApplyCall, localNodeId: int, row: LogRow, db: Db,
                     cached: map<Lru.Key, ApplyCache.CacheEntry>): Result<Outcome, ApplyError>
    requires RowFits(row)
  {
    if !call.calledAsTrigger then Err(NotCalledAsTrigger)
    else if role != Capture.Replica then Ok(KeepRow)
    else if !call.firedBefore then Err(NotFiredBefore)
    else if !call.forRow then Err(NotFiredForRow)
    else if call.nargs != 1 then Err(WrongArgCount)
    else if row.cmdtype.None? then Err(NullCmdtype)
    else if row.cmdtype.value == 'S' then ScriptSpec(row, localNodeId, db)
    else match Statement(row, call.cluster, db)
      case Err(e) => Err(e)
      case Ok(st) => RunStatement(st.sql, localNodeId, db, cached)
  }

  /** The key a replayed data row adds to the cache's lookup trace: the
      statement text, once its plan is found or prepared and its forwarding
      looked up. */
  function CacheUse(role: Capture.Role, call: ApplyCall, row: LogRow, db: Db, cached: map<Lru.Key, ApplyCache.CacheEntry>): Option<Lru.Key>
    requires RowFits(row)
  {
    if !Replays(role, call) || row.cmdtype.None? || row.cmdtype.value == 'S' then None
    else match Statement(row, call.cluster, db)
      case Err(_) => None
      case Ok(st) => UseOf(st.sql, db, cached)
  }

  // ---------------------------------------------------------------------
  // Properties of the decision.
  // ---------------------------------------------------------------------

  /** Outside the replica role the trigger keeps every row and applies nothing. */
  lemma NonReplicaKeepsRow(role: Capture.Role, call: ApplyCall, localNodeId: int, row: LogRow, db: Db,
                           cached: map<Lru.Key, ApplyCache.CacheEntry>)
    requires RowFits(row) && call.calledAsTrigger && role != Capture.Replica
    ensures ApplySpec(role, call, localNodeId, row, db, cached) == Ok(KeepRow)
    ensures CacheUse(role, call, row, db, cached).None?
  {
  }

  /** A script row is never kept in the local log. */
  lemma ScriptRowSuppressed(role: Capture.Role, call: ApplyCall, localNodeId: int, row: LogRow, db: Db,
                            cached: map<Lru.Key, ApplyCache.CacheEntry>)
    requires RowFits(row) && Replays(role, call) && row.cmdtype == Some('S')
    ensures ApplySpec(role, call, localNodeId, row, db, cached) != Ok(KeepRow)
    ensures ApplySpec(role, call, localNodeId, row, db, cached).Ok? <==>
      row.cmdargs.Some? && db.scriptLogOk &&
      match ScriptRuns(row.cmdargs.value, localNodeId, db.int4in)
      case Ok(runs) => !runs || db.ddlOk
      case Err(_) => false
  {
  }

  /** A replayed data row is kept iff its plan's forward flag is set: the
      cached flag on a hit, the looked-up flag on a miss. */
  lemma DataRowKeptIffForward(role: Capture.Role, call: ApplyCall, localNodeId: int, row: LogRow, db: Db,
                              cached: map<Lru.Key, ApplyCache.CacheEntry>)
    requires RowFits(row) && Replays(role, call) && row.cmdtype.Some? && row.cmdtype.value != 'S'
    requires ApplySpec(role, call, localNodeId, row, db, cached).Ok?
    ensures Statement(row, call.cluster, db).Ok?
    ensures var sql := Statement(row, call.cluster, db).value.sql;
      ApplySpec(role, call, localNodeId, row, db, cached) == Ok(KeepRow) <==>
        if sql in cached then cached[sql].forward else db.forwardRows.value[0]
  {
  }

  /** The forward flag is computed only on a miss: for a statement whose
      plan is cached, neither preparing nor the forwarding lookup takes
      part in the outcome. */
  lemma CachedPlanIgnoresLookup(role: Capture.Role, call: ApplyCall, localNodeId: int, row: LogRow, db: Db,
                                cached: map<Lru.Key, ApplyCache.CacheEntry>, prepareOk: bool, forwardRows: Option<seq<bool>>)
    requires RowFits(row) && Replays(role, call) && row.cmdtype.Some? && row.cmdtype.value != 'S'
    requires Statement(row, call.cluster, db).Ok? && Statement(row, call.cluster, db).value.sql in cached
    ensures ApplySpec(role, call, localNodeId, row, db.(prepareOk := prepareOk, forwardRows := forwardRows), cached)
         == ApplySpec(role, call, localNodeId, row, db, cached)
  {
    var db' := db.(prepareOk := prepareOk, forwardRows := forwardRows);
    assert Statement(row, call.cluster, db') == Statement(row, call.cluster, db);
  }

  // ---------------------------------------------------------------------
  // The trigger.
  // ---------------------------------------------------------------------

  /** The per-cluster status of the backend (the part the apply trigger
      uses) together with the plan cache. */
  class ClusterStatus {
    var currentXid: int
    const localNodeId: int
    const cache: ApplyCache.Cache

    ghost predicate Valid()
      reads this, cache
    {
      cache.Valid()
    }

    /** A new cluster status starts with an invalid transaction id, so the
        first call of a transaction flushes. */
    constructor (localNodeId: int)
      ensures Valid() && fresh(cache)
      ensures this.localNodeId == localNodeId && currentXid == InvalidXid
      ensures cache.entries == map[] && cache.trace == []
    {
      this.localNodeId := localNodeId;
      currentXid := InvalidXid;
      cache := new ApplyCache.Cache();
    }

    /** The plans the call sees: none when the transaction changed. */
    ghost function Cached(xid: int): map<Lru.Key, ApplyCache.CacheEntry>
      reads this, cache
    {
      if currentXid == xid then cache.entries else map[]
    }

    ghost function TraceBase(xid: int): seq<Lru.Key>
      reads this, cache
    {
      if currentXid == xid then cache.trace else []
    }

    /** One firing of the trigger in transaction xid. */
    method LogApply(role: Capture.Role, call: ApplyCall, xid: int, row: LogRow, db: Db)
      returns (r: Result<Outcome, ApplyError>)
      requires Valid() && xid != InvalidXid && RowFits(row)
      modifies this, cache
      ensures Valid()
      ensures r == ApplySpec(role, call, localNodeId, row, db, old(Cached(xid)))
      ensures !Replays(role, call) ==>
        currentXid == old(currentXid) && cache.trace == old(cache.trace) && cache.entries == old(cache.entries)
      ensures Replays(role, call) ==>
        currentXid == (if ScriptExecuted(row, localNodeId, db) then InvalidXid else xid)
      ensures Replays(role, call) ==>
        cache.trace == old(TraceBase(xid)) + match CacheUse(role, call, row, db, old(Cached(xid))) case Some(k) => [k] case None => []
      ensures Replays(role, call) ==> match CacheUse(role, call, row, db, old(Cached(xid)))
        case Some(k) => k in cache.entries
          && cache.entries[k] == (if k in old(Cached(xid)) then old(Cached(xid))[k]
                                  else ApplyCache.CacheEntry(ApplyCache.Plan(k), db.forwardRows.value[0]))
          && OthersKept(cache.entries, old(Cached(xid)), k)
        case None => cache.entries == old(Cached(xid))
    {
      if !call.calledAsTrigger {
        return Err(NotCalledAsTrigger);
      }
      if role != Capture.Replica {
        return Ok(KeepRow);
      }
      if !call.firedBefore {
        return Err(NotFiredBefore);
      }
      if !call.forRow {
        return Err(NotFiredForRow);
      }
      if call.nargs != 1 {
        return Err(WrongArgCount);
      }
      if currentXid != xid {
        cache.Flush();
        currentXid := xid;
      }
      if row.cmdtype.None? {
        return Err(NullCmdtype);
      }
      if row.cmdtype.value == 'S' {
        r := ApplyScript(row, db);
      } else {
        r := ApplyData(row, call.cluster, db);
      }
    }

    /** A script row: run the DDL when the node list allows it, record the
        row in sl_log_script and suppress it. */
    method ApplyScript(row: LogRow, db: Db) returns (r: Result<Outcome, ApplyError>)
      requires RowFits(row) && row.cmdtype == Some('S')
      modifies this
      ensures r == ScriptSpec(row, localNodeId, db)
      ensures currentXid == if ScriptExecuted(row, localNodeId, db) then InvalidXid else old(currentXid)
    {
      if row.cmdargs.None? {
        return Err(NullCmdargs);
      }
      var args := row.cmdargs.value;
      var ddlScript := args[0].value;
      var runs := ScanNodeList(args, localNodeId, db.int4in);
      if runs.Err? {
        return Err(runs.error);
      }
      if runs.value {
        if !db.ddlOk {
          return Err(DdlFailed(ddlScript));
        }
        currentXid := InvalidXid;
      }
      if !db.scriptLogOk {
        return Err(ScriptLogFailed);
      }
      r := Ok(SuppressRow);
    }

    /** A data row: synthesise its statement, find or prepare its plan,
        execute it and keep the row iff the plan's set is forwarded. */
    method ApplyData(row: LogRow, cluster: string, db: Db) returns (r: Result<Outcome, ApplyError>)
      requires RowFits(row) && row.cmdtype.Some? && row.cmdtype.value != 'S' && Valid()
      modifies cache
      ensures Valid()
      ensures match Statement(row, cluster, db)
        case Err(e) => r == Err(e)
        case Ok(st) => r == RunStatement(st.sql, localNodeId, db, old(cache.entries))
      ensures var use := if Statement(row, cluster, db).Err? then None else UseOf(Statement(row, cluster, db).value.sql, db, old(cache.entries));
        && cache.trace == old(cache.trace) + (match use case Some(k) => [k] case None => [])
        && match use
           case Some(k) => k in cache.entries
             && cache.entries[k] == (if k in old(cache.entries) then old(cache.entries)[k]
                                     else ApplyCache.CacheEntry(ApplyCache.Plan(k), db.forwardRows.value[0]))
             && OthersKept(cache.entries, old(cache.entries), k)
           case None => cache.entries == old(cache.entries)
    {
      var st := ReadStatement(row, cluster, db);
      if st.Err? {
        return Err(st.error);
      }
      var sql := st.value.sql;
      var hit, entry := cache.Probe(sql);
      if !hit {
        if !db.prepareOk {
          return Err(PrepareFailed(sql));
        }
        if db.forwardRows.None? {
          return Err(ForwardQueryFailed);
        }
        if |db.forwardRows.value| != 1 {
          return Err(ForwardLookupFailed(localNodeId));
        }
        entry := ApplyCache.CacheEntry(ApplyCache.Plan(sql), db.forwardRows.value[0]);
        cache.Insert(sql, entry);
      }
      if !db.execOk {
        return Err(ExecFailed(sql));
      }
      r := Ok(Verdict(entry.forward));
    }

    /** Reading the data row's columns and the target relation, then the
        switch on the command type. */
    method ReadStatement(row: LogRow, cluster: string, db: Db) returns (r: Result<Synthesis.Statement, ApplyError>)
      requires RowFits(row) && row.cmdtype.Some? && row.cmdtype.value != 'S'
      ensures r == Statement(row, cluster, db)
    {
      var c := row.cmdtype.value;
      if row.cmdupdncols.None? && c == 'U' {
        return Err(NullUpdncols);
      }
      var ncols := if row.cmdupdncols.Some? then row.cmdupdncols.value else 0;
      if row.cmdargs.None? {
        return Err(NullCmdargs);
      }
      if db.relation.None? {
        return Err(NoTable(row.nspname, row.relname));
      }
      var st := Synthesis.Synthesize(c, cluster, row.nspname, row.relname, ncols, row.cmdargs.value, db.relation.value, db.keywords);
      if st.Err? {
        return Err(Synth(st.error));
      }
      r := Ok(st.value);
    }
  }

  /** Every entry other than k's was cached before, with the same plan and
      forward flag: a call adds or refreshes only its own entry (and may
      evict others). */
  predicate OthersKept(now: map<Lru.Key, ApplyCache.CacheEntry>, before: map<Lru.Key, ApplyCache.CacheEntry>, k: Lru.Key)
  {
    forall k' :: k' in now && k' != k ==> k' in before && now[k'] == before[k']
  }

  /** The key a statement adds to the lookup trace: on a hit, or on a miss
      whose plan is prepared and whose forwarding lookup finds one row. */
  function UseOf(sql: string, db: Db, cached: map<Lru.Key, ApplyCache.CacheEntry>): Option<Lru.Key>
  {
    if sql in cached || (db.prepareOk && db.forwardRows.Some? && |db.forwardRows.value| == 1) then Some(sql) else None
  }
}
