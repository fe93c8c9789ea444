/** Change capture (_Slony_I_logTrigger): the AFTER ROW trigger on a
    replicated table turns one INSERT, UPDATE or DELETE into a log record
    whose argument array is a flat list of (column name, value) pairs. */
module Capture {
  import opened Common

  /** One attribute of the table's tuple descriptor. */
  datatype Attribute = Attribute(name: string, dropped: bool)

  /** A row image: the text form of each attribute's value, None for NULL. */
  type Row = seq<Option<string>>

  /** The equality used to decide whether a non-NULL column changed: the
      type's own equality operator where it has one, else comparison of the
      text forms. Its first argument is the attribute number (0-based). */
  type ColumnEq = (nat, string, string) -> bool

  datatype TriggerEvent =
    | InsertEvent(newRow: Row)
    | UpdateEvent(oldRow: Row, newRow: Row)
    | DeleteEvent(oldRow: Row)
    | OtherEvent

  /** The session_replication_role the trigger runs under. */
  datatype Role = Origin | Replica | Local

  /** The trigger call context: calling conventions and trigger arguments
      (cluster name, table id, attkind key mask). */
  datatype TriggerCall = TriggerCall(
    calledAsTrigger: bool, firedAfter: bool, forRow: bool, nargs: int,
    tabId: int, attkind: string, event: TriggerEvent)

  /** The replicated table: its namespace, name and tuple descriptor. */
  datatype Relation = Relation(nspname: string, relname: string, desc: seq<Attribute>)

  datatype CaptureError =
    | NotCalledAsTrigger
    | NotFiredAfter
    | NotFiredForRow
    | WrongArgCount
    | NullKeyOnUpdate(relname: string, column: string)
    | NullKeyOnDelete(relname: string, column: string)
    | UnhandledEvent

  /** A log row as inserted into sl_log_1/sl_log_2. */
  datatype LogRecord = LogRecord(
    tabId: int, nspname: string, relname: string,
    cmdtype: char, cmdupdncols: int, cmdargs: seq<Option<string>>)

  datatype CaptureOutcome = NotLogged | Logged(rec: LogRecord)

  predicate RowFits(desc: seq<Attribute>, row: Row) { |row| == |desc| }

  predicate EventFits(desc: seq<Attribute>, ev: TriggerEvent)
  {
    match ev
    case InsertEvent(n) => RowFits(desc, n)
    case UpdateEvent(o, n) => RowFits(desc, o) && RowFits(desc, n)
    case DeleteEvent(o) => RowFits(desc, o)
    case OtherEvent => true
  }

  // ---------------------------------------------------------------------
  // The pair lists, column by column from attribute i on.
  // ---------------------------------------------------------------------

  /** INSERT: (name, value) of every attribute that is not dropped. */
  function InsertPairs(desc: seq<Attribute>, row: Row, i: nat): seq<Option<string>>
    requires RowFits(desc, row) && i <= |desc|
    decreases |desc| - i
  {
    if i == |desc| then []
    else if desc[i].dropped then InsertPairs(desc, row, i + 1)
    else [Some(desc[i].name), row[i]] + InsertPairs(desc, row, i + 1)
  }

  /** An UPDATE changed a column unless both images are NULL or both are
      non-NULL and equal. */
  predicate Changed(eq: ColumnEq, i: nat, o: Option<string>, n: Option<string>)
  {
    if o.None? && n.None? then false
    else if o.Some? && n.Some? then !eq(i, o.value, n.value)
    else true
  }

  /** UPDATE, first pass: (name, new value) of every changed attribute. */
  function SetPairs(desc: seq<Attribute>, oldRow: Row, newRow: Row, eq: ColumnEq, i: nat): seq<Option<string>>
    requires RowFits(desc, oldRow) && RowFits(desc, newRow) && i <= |desc|
    decreases |desc| - i
  {
    if i == |desc| then []
    else if desc[i].dropped || !Changed(eq, i, oldRow[i], newRow[i]) then SetPairs(desc, oldRow, newRow, eq, i + 1)
    else [Some(desc[i].name), newRow[i]] + SetPairs(desc, oldRow, newRow, eq, i + 1)
  }

  /** UPDATE second pass and DELETE: (name, old value) of every key
      attribute. k is the position in attkind of attribute i (dropped
      attributes have none); the scan stops at the end of attkind. A key
      attribute whose old value is NULL is an error naming it. */
  function KeyPairs(desc: seq<Attribute>, oldRow: Row, attkind: string, i: nat, k: nat): Result<seq<Option<string>>, string>
    requires RowFits(desc, oldRow) && i <= |desc|
    decreases |desc| - i
  {
    if i == |desc| then Ok([])
    else if desc[i].dropped then KeyPairs(desc, oldRow, attkind, i + 1, k)
    else if k >= |attkind| then Ok([])
    else if attkind[k] != 'k' then KeyPairs(desc, oldRow, attkind, i + 1, k + 1)
    else if oldRow[i].None? then Err(desc[i].name)
    else
      match KeyPairs(desc, oldRow, attkind, i + 1, k + 1)
      case Ok(rest) => Ok([Some(desc[i].name), oldRow[i]] + rest)
      case Err(c) => Err(c)
  }

  /** prefix ++ r for a successful r; an error stays as it is. */
  function Prepend(prefix: seq<Option<string>>, r: Result<seq<Option<string>>, string>): Result<seq<Option<string>>, string>
  {
    match r
    case Ok(s) => Ok(prefix + s)
    case Err(c) => Err(c)
  }

  lemma PrependNil(r: Result<seq<Option<string>>, string>)
    ensures Prepend([], r) == r
  {
    if r.Ok? {
      assert [] + r.value == r.value;
    }
  }

  lemma PrependAppend(a: seq<Option<string>>, b: seq<Option<string>>, r: Result<seq<Option<string>>, string>)
    ensures Prepend(a, Prepend(b, r)) == Prepend(a + b, r)
  {
    if r.Ok? {
      assert a + (b + r.value) == (a + b) + r.value;
    }
  }

  /** The number of (name, value) pairs in a flat pair list. */
  function PairCount(args: seq<Option<string>>): int { |args| / 2 }

  /** What the trigger logs for one row event. */
  function CaptureSpec(role: Role, call: TriggerCall, rel: Relation, eq: ColumnEq): Result<CaptureOutcome, CaptureError>
    requires EventFits(rel.desc, call.event)
  {
    if role != Origin then Ok(NotLogged)
    else if !call.calledAsTrigger then Err(NotCalledAsTrigger)
    else if !call.firedAfter then Err(NotFiredAfter)
    else if !call.forRow then Err(NotFiredForRow)
    else if call.nargs != 3 then Err(WrongArgCount)
    else
      match call.event
      case InsertEvent(n) =>
        Ok(Logged(LogRecord(call.tabId, rel.nspname, rel.relname, 'I', 0, InsertPairs(rel.desc, n, 0))))
      case UpdateEvent(o, n) =>
        var changed := SetPairs(rel.desc, o, n, eq, 0);
        (match KeyPairs(rel.desc, o, call.attkind, 0, 0)
         case Err(c) => Err(NullKeyOnUpdate(rel.relname, c))
         case Ok(keys) =>
           Ok(Logged(LogRecord(call.tabId, rel.nspname, rel.relname, 'U', PairCount(changed), changed + keys))))
      case DeleteEvent(o) =>
        (match KeyPairs(rel.desc, o, call.attkind, 0, 0)
         case Err(c) => Err(NullKeyOnDelete(rel.relname, c))
         case Ok(keys) => Ok(Logged(LogRecord(call.tabId, rel.nspname, rel.relname, 'D', 0, keys))))
      case OtherEvent => Err(UnhandledEvent)
  }

  // ---------------------------------------------------------------------
  // Reading a pair list back. The replica looks values up by column name;
  // the lemmas below show that what the trigger logs is enough to rebuild
  // the inserted row, the updated row and the key of the old row.
  // ---------------------------------------------------------------------

  /** The value paired with the first occurrence of name, if any. */
  function Lookup(args: seq<Option<string>>, name: string): Option<Option<string>>
  {
    if |args| < 2 then None
    else if args[0] == Some(name) then Some(args[1])
    else Lookup(args[2..], name)
  }

  lemma LookupCons(n: string, v: Option<string>, rest: seq<Option<string>>, name: string)
    ensures Lookup([Some(n), v] + rest, name) == if n == name then Some(v) else Lookup(rest, name)
  {
    assert ([Some(n), v] + rest)[2..] == rest;
  }

  /** Live (not dropped) attributes carry distinct names, as in a catalog. */
  predicate UniqueLiveNames(desc: seq<Attribute>)
  {
    forall a, b :: 0 <= a < b < |desc| && !desc[a].dropped && !desc[b].dropped ==> desc[a].name != desc[b].name
  }

  /** Every live column of the new row can be read back from an INSERT's
      pairs, and nothing else. */
  lemma {:induction false} InsertLookup(desc: seq<Attribute>, row: Row, i: nat, c: nat)
    requires RowFits(desc, row) && i <= |desc| && c < |desc| && !desc[c].dropped
    requires UniqueLiveNames(desc)
    ensures Lookup(InsertPairs(desc, row, i), desc[c].name) == if i <= c then Some(row[c]) else None
    decreases |desc| - i
  {
    if i < |desc| {
      InsertLookup(desc, row, i + 1, c);
      if !desc[i].dropped {
        LookupCons(desc[i].name, row[i], InsertPairs(desc, row, i + 1), desc[c].name);
        assert c != i ==> desc[i].name != desc[c].name;
      }
    }
  }

  /** The replica's reading of an INSERT: every live column has its value. */
  lemma InsertRoundTrip(desc: seq<Attribute>, row: Row, c: nat)
    requires RowFits(desc, row) && c < |desc| && !desc[c].dropped
    requires UniqueLiveNames(desc)
    ensures Lookup(InsertPairs(desc, row, 0), desc[c].name) == Some(row[c])
  {
    InsertLookup(desc, row, 0, c);
  }

  /** The column equality never calls different values equal. */
  ghost predicate SoundEq(eq: ColumnEq)
  {
    forall i, a, b :: eq(i, a, b) ==> a == b
  }

  /** An UPDATE's first pass names exactly the changed live columns, each
      with its new value. */
  lemma {:induction false} SetLookup(desc: seq<Attribute>, oldRow: Row, newRow: Row, eq: ColumnEq, i: nat, c: nat)
    requires RowFits(desc, oldRow) && RowFits(desc, newRow) && i <= |desc| && c < |desc| && !desc[c].dropped
    requires UniqueLiveNames(desc)
    ensures Lookup(SetPairs(desc, oldRow, newRow, eq, i), desc[c].name)
         == if i <= c && Changed(eq, c, oldRow[c], newRow[c]) then Some(newRow[c]) else None
    decreases |desc| - i
  {
    if i < |desc| {
      SetLookup(desc, oldRow, newRow, eq, i + 1, c);
      if !desc[i].dropped && Changed(eq, i, oldRow[i], newRow[i]) {
        LookupCons(desc[i].name, newRow[i], SetPairs(desc, oldRow, newRow, eq, i + 1), desc[c].name);
        assert c != i ==> desc[i].name != desc[c].name;
      }
    }
  }

  /** Applying an UPDATE's SET pairs to the old row by name yields the new
      row, column by column: unchanged columns are not sent and keep their
      old value. */
  lemma UpdateRoundTrip(desc: seq<Attribute>, oldRow: Row, newRow: Row, eq: ColumnEq, c: nat)
    requires RowFits(desc, oldRow) && RowFits(desc, newRow) && c < |desc| && !desc[c].dropped
    requires UniqueLiveNames(desc) && SoundEq(eq)
    ensures (match Lookup(SetPairs(desc, oldRow, newRow, eq, 0), desc[c].name)
             case Some(v) => v
             case None => oldRow[c]) == newRow[c]
  {
    SetLookup(desc, oldRow, newRow, eq, 0, c);
  }

  /** Number of live attributes in a prefix of the descriptor: the position
      in attkind of the next live attribute. */
  function LiveCount(desc: seq<Attribute>): nat
  {
    if |desc| == 0 then 0
    else LiveCount(desc[..|desc| - 1]) + (if desc[|desc| - 1].dropped then 0 else 1)
  }

  lemma LiveCountStep(desc: seq<Attribute>, i: nat)
    requires i < |desc|
    ensures LiveCount(desc[..i + 1]) == LiveCount(desc[..i]) + (if desc[i].dropped then 0 else 1)
  {
    assert desc[..i + 1][..i] == desc[..i];
  }

  lemma {:induction false} LiveCountMono(desc: seq<Attribute>, a: nat, b: nat)
    requires a <= b <= |desc|
    ensures LiveCount(desc[..a]) <= LiveCount(desc[..b])
    decreases b - a
  {
    if a < b {
      LiveCountStep(desc, a);
      LiveCountMono(desc, a + 1, b);
    }
  }

  /** Attribute c is a key column: it is live and the attkind character at
      its live position is 'k'. */
  predicate IsKey(desc: seq<Attribute>, attkind: string, c: int)
  {
    0 <= c < |desc| && !desc[c].dropped
    && LiveCount(desc[..c]) < |attkind| && attkind[LiveCount(desc[..c])] == 'k'
  }

  /** No attribute from i on is a key once attkind is exhausted. */
  lemma NoKeysPastAttkind(desc: seq<Attribute>, attkind: string, i: nat)
    requires i <= |desc| && LiveCount(desc[..i]) >= |attkind|
    ensures forall c :: i <= c < |desc| ==> !IsKey(desc, attkind, c)
  {
    forall c | i <= c < |desc|
      ensures LiveCount(desc[..c]) >= |attkind|
    {
      LiveCountMono(desc, i, c);
    }
  }

  /** The key pass fails exactly when a key column's old value is NULL, and
      the error names such a column. */
  lemma {:induction false} KeyPairsErr(desc: seq<Attribute>, oldRow: Row, attkind: string, i: nat)
    requires RowFits(desc, oldRow) && i <= |desc|
    ensures KeyPairs(desc, oldRow, attkind, i, LiveCount(desc[..i])).Err?
        <==> exists c :: i <= c < |desc| && IsKey(desc, attkind, c) && oldRow[c].None?
    ensures KeyPairs(desc, oldRow, attkind, i, LiveCount(desc[..i])).Err? ==>
        exists c :: i <= c < |desc| && IsKey(desc, attkind, c) && oldRow[c].None?
                    && desc[c].name == KeyPairs(desc, oldRow, attkind, i, LiveCount(desc[..i])).error
    decreases |desc| - i
  {
    var k := LiveCount(desc[..i]);
    if i < |desc| {
      LiveCountStep(desc, i);
      if desc[i].dropped {
        KeyPairsErr(desc, oldRow, attkind, i + 1);
      } else if k >= |attkind| {
        NoKeysPastAttkind(desc, attkind, i);
      } else if attkind[k] != 'k' {
        KeyPairsErr(desc, oldRow, attkind, i + 1);
      } else if oldRow[i].None? {
        assert IsKey(desc, attkind, i);
      } else {
        KeyPairsErr(desc, oldRow, attkind, i + 1);
      }
    }
  }

  /** When the key pass succeeds it sends exactly the key columns, each with
      its old value. */
  lemma {:induction false} KeyLookup(desc: seq<Attribute>, oldRow: Row, attkind: string, i: nat, c: nat)
    requires RowFits(desc, oldRow) && i <= |desc| && c < |desc| && !desc[c].dropped
    requires UniqueLiveNames(desc)
    requires KeyPairs(desc, oldRow, attkind, i, LiveCount(desc[..i])).Ok?
    ensures Lookup(KeyPairs(desc, oldRow, attkind, i, LiveCount(desc[..i])).value, desc[c].name)
         == if i <= c && IsKey(desc, attkind, c) then Some(oldRow[c]) else None
    decreases |desc| - i
  {
    var k := LiveCount(desc[..i]);
    if i < |desc| {
      LiveCountStep(desc, i);
      if desc[i].dropped {
        KeyLookup(desc, oldRow, attkind, i + 1, c);
      } else if k >= |attkind| {
        NoKeysPastAttkind(desc, attkind, i);
      } else if attkind[k] != 'k' {
        KeyLookup(desc, oldRow, attkind, i + 1, c);
      } else {
        KeyLookup(desc, oldRow, attkind, i + 1, c);
        var rest := KeyPairs(desc, oldRow, attkind, i + 1, k + 1).value;
        LookupCons(desc[i].name, oldRow[i], rest, desc[c].name);
        assert c != i ==> desc[i].name != desc[c].name;
      }
    }
  }

  /** A flat pair list as the apply trigger expects it: an even number of
      elements and no NULL column name. */
  predicate WellFormedPairs(args: seq<Option<string>>)
  {
    |args| % 2 == 0 && forall j :: 0 <= j < |args| / 2 ==> args[2 * j].Some?
  }

  lemma WellFormedCons(n: string, v: Option<string>, rest: seq<Option<string>>)
    requires WellFormedPairs(rest)
    ensures WellFormedPairs([Some(n), v] + rest)
  {
    var s := [Some(n), v] + rest;
    forall j | 0 <= j < |s| / 2
      ensures s[2 * j].Some?
    {
      if j > 0 {
        assert s[2 * j] == rest[2 * (j - 1)];
      }
    }
  }

  lemma WellFormedAppend(a: seq<Option<string>>, b: seq<Option<string>>)
    requires WellFormedPairs(a) && WellFormedPairs(b)
    ensures WellFormedPairs(a + b)
  {
    var s := a + b;
    forall j | 0 <= j < |s| / 2
      ensures s[2 * j].Some?
    {
      if j >= |a| / 2 {
        assert s[2 * j] == b[2 * (j - |a| / 2)];
      }
    }
  }

  lemma {:induction false} InsertPairsWellFormed(desc: seq<Attribute>, row: Row, i: nat)
    requires RowFits(desc, row) && i <= |desc|
    ensures WellFormedPairs(InsertPairs(desc, row, i))
    decreases |desc| - i
  {
    if i < |desc| {
      InsertPairsWellFormed(desc, row, i + 1);
      if !desc[i].dropped {
        WellFormedCons(desc[i].name, row[i], InsertPairs(desc, row, i + 1));
      }
    }
  }

  lemma {:induction false} SetPairsWellFormed(desc: seq<Attribute>, oldRow: Row, newRow: Row, eq: ColumnEq, i: nat)
    requires RowFits(desc, oldRow) && RowFits(desc, newRow) && i <= |desc|
    ensures WellFormedPairs(SetPairs(desc, oldRow, newRow, eq, i))
    decreases |desc| - i
  {
    if i < |desc| {
      SetPairsWellFormed(desc, oldRow, newRow, eq, i + 1);
      if !desc[i].dropped && Changed(eq, i, oldRow[i], newRow[i]) {
        WellFormedCons(desc[i].name, newRow[i], SetPairs(desc, oldRow, newRow, eq, i + 1));
      }
    }
  }

  lemma {:induction false} KeyPairsWellFormed(desc: seq<Attribute>, oldRow: Row, attkind: string, i: nat, k: nat)
    requires RowFits(desc, oldRow) && i <= |desc|
    requires KeyPairs(desc, oldRow, attkind, i, k).Ok?
    ensures WellFormedPairs(KeyPairs(desc, oldRow, attkind, i, k).value)
    decreases |desc| - i
  {
    if i < |desc| && !desc[i].dropped && k < |attkind| {
      KeyPairsWellFormed(desc, oldRow, attkind, i + 1, k + 1);
      if attkind[k] == 'k' {
        WellFormedCons(desc[i].name, oldRow[i], KeyPairs(desc, oldRow, attkind, i + 1, k + 1).value);
      }
    } else if i < |desc| && desc[i].dropped {
      KeyPairsWellFormed(desc, oldRow, attkind, i + 1, k);
    }
  }

  /** Every record the trigger logs is one the apply trigger accepts: the
      argument array is well formed and its first cmdupdncols pairs are the
      SET list of an UPDATE (none for INSERT and DELETE). */
  lemma CaptureWellFormed(role: Role, call: TriggerCall, rel: Relation, eq: ColumnEq)
    requires EventFits(rel.desc, call.event)
    requires CaptureSpec(role, call, rel, eq).Ok? && CaptureSpec(role, call, rel, eq).value.Logged?
    ensures var rec := CaptureSpec(role, call, rel, eq).value.rec;
      WellFormedPairs(rec.cmdargs) && rec.cmdtype in "IUD"
      && 0 <= rec.cmdupdncols && 2 * rec.cmdupdncols <= |rec.cmdargs|
      && (rec.cmdtype != 'U' ==> rec.cmdupdncols == 0)
  {
    match call.event
    case InsertEvent(n) =>
      InsertPairsWellFormed(rel.desc, n, 0);
    case UpdateEvent(o, n) =>
      SetPairsWellFormed(rel.desc, o, n, eq, 0);
      KeyPairsWellFormed(rel.desc, o, call.attkind, 0, 0);
      WellFormedAppend(SetPairs(rel.desc, o, n, eq, 0), KeyPairs(rel.desc, o, call.attkind, 0, 0).value);
    case DeleteEvent(o) =>
      KeyPairsWellFormed(rel.desc, o, call.attkind, 0, 0);
    case OtherEvent =>
  }

  // ---------------------------------------------------------------------
  // The trigger body: the argument array is filled through an advancing
  // element index, as the C code advances cmdargselem/cmdnullselem. One
  // array of Option<string> stands for the Datum array and its parallel
  // null-flag array.
  // ---------------------------------------------------------------------

  /** Stores one (name, value) pair at elem and returns the element index
      after it; the elements before elem are kept. */
  method PutPair(cmdargs: array<Option<string>>, from: nat, elem: nat, name: Option<string>, value: Option<string>)
    returns (next: nat)
    requires from <= elem && elem + 2 <= cmdargs.Length
    modifies cmdargs
    ensures next == elem + 2
    ensures cmdargs[..from] == old(cmdargs[..from])
    ensures cmdargs[from..next] == old(cmdargs[from..elem]) + [name, value]
  {
    cmdargs[elem] := name;
    cmdargs[elem + 1] := value;
    next := elem + 2;
  }

  /** INSERT: the buffer of 2 * natts + 2 elements is never overrun. */
  method EncodeInsert(desc: seq<Attribute>, newRow: Row) returns (args: seq<Option<string>>)
    requires RowFits(desc, newRow)
    ensures args == InsertPairs(desc, newRow, 0)
  {
    var cmdargs := new Option<string>[|desc| * 2 + 2];
    var elem := 0;
    var i := 0;
    while i < |desc|
      invariant 0 <= i <= |desc|
      invariant elem <= 2 * i
      invariant cmdargs[..elem] + InsertPairs(desc, newRow, i) == InsertPairs(desc, newRow, 0)
    {
      if !desc[i].dropped {
        Assoc(cmdargs[..elem], [Some(desc[i].name), newRow[i]], InsertPairs(desc, newRow, i + 1));
        elem := PutPair(cmdargs, 0, elem, Some(desc[i].name), newRow[i]);
      }
      i := i + 1;
    }
    args := cmdargs[..elem];
  }

  /** UPDATE, first pass into a buffer of 4 * natts + 3 elements: the
      changed columns, counted in cmdupdncols. */
  method EncodeSetPairs(cmdargs: array<Option<string>>, desc: seq<Attribute>, oldRow: Row, newRow: Row, eq: ColumnEq)
    returns (elem: nat, cmdupdncols: nat)
    requires RowFits(desc, oldRow) && RowFits(desc, newRow)
    requires 2 * |desc| <= cmdargs.Length
    modifies cmdargs
    ensures elem <= 2 * |desc|
    ensures cmdargs[..elem] == SetPairs(desc, oldRow, newRow, eq, 0)
    ensures elem == 2 * cmdupdncols
  {
    elem := 0;
    cmdupdncols := 0;
    var i := 0;
    while i < |desc|
      invariant 0 <= i <= |desc|
      invariant elem <= 2 * i && elem == 2 * cmdupdncols
      invariant cmdargs[..elem] + SetPairs(desc, oldRow, newRow, eq, i) == SetPairs(desc, oldRow, newRow, eq, 0)
    {
      if !desc[i].dropped && Changed(eq, i, oldRow[i], newRow[i]) {
        Assoc(cmdargs[..elem], [Some(desc[i].name), newRow[i]], SetPairs(desc, oldRow, newRow, eq, i + 1));
        elem := PutPair(cmdargs, 0, elem, Some(desc[i].name), newRow[i]);
        cmdupdncols := cmdupdncols + 1;
      }
      i := i + 1;
    }
  }

  /** The key pass shared by UPDATE and DELETE: appends the key pairs from
      element start on; attkindIdx follows the attkind position of the
      current attribute and the scan stops at the end of attkind. */
  method AppendKeyPairs(cmdargs: array<Option<string>>, start: nat, desc: seq<Attribute>, oldRow: Row, attkind: string)
    returns (r: Result<nat, string>)
    requires RowFits(desc, oldRow)
    requires start + 2 * |desc| <= cmdargs.Length
    modifies cmdargs
    ensures cmdargs[..start] == old(cmdargs[..start])
    ensures r.Ok? ==> start <= r.value <= start + 2 * |desc| && KeyPairs(desc, oldRow, attkind, 0, 0) == Ok(cmdargs[start..r.value])
    ensures r.Err? ==> KeyPairs(desc, oldRow, attkind, 0, 0) == Err(r.error)
  {
    var elem := start;
    var attkindIdx := -1;
    var i := 0;
    PrependNil(KeyPairs(desc, oldRow, attkind, 0, 0));
    assert cmdargs[start..elem] == [];
    while i < |desc|
      invariant 0 <= i <= |desc|
      invariant -1 <= attkindIdx
      invariant start <= elem <= start + 2 * i
      invariant cmdargs[..start] == old(cmdargs[..start])
      invariant Prepend(cmdargs[start..elem], KeyPairs(desc, oldRow, attkind, i, attkindIdx + 1)) == KeyPairs(desc, oldRow, attkind, 0, 0)
    {
      if desc[i].dropped {
        i := i + 1;
        continue;
      }
      attkindIdx := attkindIdx + 1;
      if attkindIdx >= |attkind| {
        assert cmdargs[start..elem] + [] == cmdargs[start..elem];
        break;
      }
      if attkind[attkindIdx] != 'k' {
        i := i + 1;
        continue;
      }
      if oldRow[i].None? {
        return Err(desc[i].name);
      }
      PrependAppend(cmdargs[start..elem], [Some(desc[i].name), oldRow[i]], KeyPairs(desc, oldRow, attkind, i + 1, attkindIdx + 1));
      elem := PutPair(cmdargs, start, elem, Some(desc[i].name), oldRow[i]);
      i := i + 1;
    }
    if i == |desc| {
      assert cmdargs[start..elem] + [] == cmdargs[start..elem];
    }
    return Ok(elem);
  }

  /** UPDATE: changed columns, then key columns. */
  method EncodeUpdate(desc: seq<Attribute>, oldRow: Row, newRow: Row, eq: ColumnEq, attkind: string)
    returns (r: Result<(int, seq<Option<string>>), string>)
    requires RowFits(desc, oldRow) && RowFits(desc, newRow)
    ensures r.Err? <==> KeyPairs(desc, oldRow, attkind, 0, 0).Err?
    ensures r.Err? ==> KeyPairs(desc, oldRow, attkind, 0, 0) == Err(r.error)
    ensures r.Ok? ==> r.value.0 == PairCount(SetPairs(desc, oldRow, newRow, eq, 0))
    ensures r.Ok? ==> r.value.1 == SetPairs(desc, oldRow, newRow, eq, 0) + KeyPairs(desc, oldRow, attkind, 0, 0).value
  {
    var cmdargs := new Option<string>[|desc| * 4 + 3];
    var elem, cmdupdncols := EncodeSetPairs(cmdargs, desc, oldRow, newRow, eq);
    var keys := AppendKeyPairs(cmdargs, elem, desc, oldRow, attkind);
    match keys
    case Err(c) =>
      r := Err(c);
    case Ok(end) =>
      assert cmdargs[..end] == cmdargs[..elem] + cmdargs[elem..end];
      r := Ok((cmdupdncols, cmdargs[..end]));
  }

  /** DELETE: key columns only. */
  method EncodeDelete(desc: seq<Attribute>, oldRow: Row, attkind: string)
    returns (r: Result<seq<Option<string>>, string>)
    requires RowFits(desc, oldRow)
    ensures r == KeyPairs(desc, oldRow, attkind, 0, 0)
  {
    var cmdargs := new Option<string>[|desc| * 2 + 2];
    var keys := AppendKeyPairs(cmdargs, 0, desc, oldRow, attkind);
    match keys
    case Err(c) =>
      r := Err(c);
    case Ok(end) =>
      r := Ok(cmdargs[..end]);
  }

  /** The trigger: convention checks, then the encoding of the event. */
  method LogTrigger(role: Role, call: TriggerCall, rel: Relation, eq: ColumnEq)
    returns (r: Result<CaptureOutcome, CaptureError>)
    requires EventFits(rel.desc, call.event)
    ensures r == CaptureSpec(role, call, rel, eq)
  {
    if role != Origin {
      return Ok(NotLogged);
    }
    if !call.calledAsTrigger {
      return Err(NotCalledAsTrigger);
    }
    if !call.firedAfter {
      return Err(NotFiredAfter);
    }
    if !call.forRow {
      return Err(NotFiredForRow);
    }
    if call.nargs != 3 {
      return Err(WrongArgCount);
    }
    match call.event
    case InsertEvent(n) =>
      var args := EncodeInsert(rel.desc, n);
      r := Ok(Logged(LogRecord(call.tabId, rel.nspname, rel.relname, 'I', 0, args)));
    case UpdateEvent(o, n) =>
      var u := EncodeUpdate(rel.desc, o, n, eq, call.attkind);
      if u.Err? {
        r := Err(NullKeyOnUpdate(rel.relname, u.error));
      } else {
        r := Ok(Logged(LogRecord(call.tabId, rel.nspname, rel.relname, 'U', u.value.0, u.value.1)));
      }
    case DeleteEvent(o) =>
      var d := EncodeDelete(rel.desc, o, call.attkind);
      if d.Err? {
        r := Err(NullKeyOnDelete(rel.relname, d.error));
      } else {
        r := Ok(Logged(LogRecord(call.tabId, rel.nspname, rel.relname, 'D', 0, d.value)));
      }
    case OtherEvent =>
      r := Err(UnhandledEvent);
  }
}
