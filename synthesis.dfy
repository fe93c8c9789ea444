/** Statement synthesis of the apply trigger (_Slony_I_logApply): a log row's
    command type, table name, cmdupdncols and flat (column name, value) pair
    array are turned into the text of a parameterised SQL statement, its
    parameter values and its nulls vector. The realloc'd query buffer is a
    string that the loops extend. */
module Synthesis {
  import opened Common
  import opened Quoting

  datatype SynthError =
    | NullColumnName
    | TypeLookupFailed(column: string)
    | UnhandledCmdType(cmdtype: char)

  /** The column type lookup in the target relation (SPI_fnumber followed by
      SPI_gettype): the type's name, None when the column is not found. */
  type TypeLookup = string -> Option<string>

  /** What is handed to SPI_prepare and SPI_execp: the query text, the
      parameter values and the nulls vector ('n' for NULL, ' ' otherwise). */
  datatype Statement = Statement(sql: string, values: seq<Option<string>>, nulls: string)

  // ---------------------------------------------------------------------
  // Pairs, names and types.
  // ---------------------------------------------------------------------

  /** The first i pairs all have a column name. */
  predicate NamesPresentUpTo(args: seq<Option<string>>, i: nat)
  {
    2 * i <= |args| && forall j :: 0 <= j < i ==> args[2 * j].Some?
  }

  /** The column types of the first i pairs, looked up pair by pair: a NULL
      name or a failed type lookup is an error about the first such pair. */
  function PairTypes(args: seq<Option<string>>, typeOf: TypeLookup, i: nat): (r: Result<seq<string>, SynthError>)
    requires 2 * i <= |args|
    ensures r.Ok? ==> |r.value| == i && NamesPresentUpTo(args, i)
  {
    if i == 0 then Ok([])
    else
      match PairTypes(args, typeOf, i - 1)
      case Err(e) => Err(e)
      case Ok(types) =>
        if args[2 * (i - 1)].None? then Err(NullColumnName)
        else
          match typeOf(args[2 * (i - 1)].value)
          case None => Err(TypeLookupFailed(args[2 * (i - 1)].value))
          case Some(t) => Ok(types + [t])
  }

  /** The types found are those of the named columns, and the lookup fails
      exactly when some pair has a NULL name or a column of unknown type. */
  lemma {:induction false} PairTypesMeaning(args: seq<Option<string>>, typeOf: TypeLookup, i: nat)
    requires 2 * i <= |args|
    ensures PairTypes(args, typeOf, i).Ok? ==>
              forall j :: 0 <= j < i ==> typeOf(args[2 * j].value) == Some(PairTypes(args, typeOf, i).value[j])
    ensures PairTypes(args, typeOf, i).Err? <==> exists j :: 0 <= j < i && (args[2 * j].None? || typeOf(args[2 * j].value).None?)
  {
    if i > 0 {
      PairTypesMeaning(args, typeOf, i - 1);
      if PairTypes(args, typeOf, i).Err? && PairTypes(args, typeOf, i - 1).Ok? {
        assert args[2 * (i - 1)].None? || typeOf(args[2 * (i - 1)].value).None?;
      }
    }
  }

  /** Once a pair fails, later pairs do not change the error. */
  lemma {:induction false} PairTypesErrSticky(args: seq<Option<string>>, typeOf: TypeLookup, i: nat, k: nat)
    requires i <= k && 2 * k <= |args|
    requires PairTypes(args, typeOf, i).Err?
    ensures PairTypes(args, typeOf, k) == PairTypes(args, typeOf, i)
    decreases k - i
  {
    if i < k {
      PairTypesErrSticky(args, typeOf, i, k - 1);
    }
  }

  /** The error reported for a log row whose pairs cannot all be typed is
      about a pair that really has a NULL name or an unknown column. */
  lemma {:induction false} PairTypesErrWitness(args: seq<Option<string>>, typeOf: TypeLookup, i: nat)
    requires 2 * i <= |args|
    requires PairTypes(args, typeOf, i).Err?
    ensures PairTypes(args, typeOf, i) == Err(NullColumnName)
            || exists j :: 0 <= j < i && args[2 * j].Some? && typeOf(args[2 * j].value).None?
                           && PairTypes(args, typeOf, i) == Err(TypeLookupFailed(args[2 * j].value))
  {
    if PairTypes(args, typeOf, i - 1).Err? {
      PairTypesErrWitness(args, typeOf, i - 1);
    }
  }

  // ---------------------------------------------------------------------
  // Pieces of statement text.
  // ---------------------------------------------------------------------

  /** The positional parameter for pair j with its cast: $<j+1>::<type>. */
  function Param(j: nat, t: string): string
  {
    "$" + NatToString(j + 1) + "::" + t
  }

  /** The quoted target table: namespace.relation. */
  function Target(nsp: string, rel: string, keywords: set<string>): string
  {
    QuoteIdent(nsp, keywords) + "." + QuoteIdent(rel, keywords)
  }

  /** The quoted column names of the first i pairs. */
  function ColumnList(args: seq<Option<string>>, keywords: set<string>, i: nat): (r: seq<string>)
    requires NamesPresentUpTo(args, i)
    ensures |r| == i
  {
    if i == 0 then [] else ColumnList(args, keywords, i - 1) + [QuoteIdent(args[2 * (i - 1)].value, keywords)]
  }

  /** The placeholders of the first i pairs. */
  function ParamList(types: seq<string>, i: nat): (r: seq<string>)
    requires i <= |types|
    ensures |r| == i
  {
    if i == 0 then [] else ParamList(types, i - 1) + [Param(i - 1, types[i - 1])]
  }

  /** One comparison or assignment: <column> = $<j+1>::<type>. */
  function Item(args: seq<Option<string>>, types: seq<string>, keywords: set<string>, j: nat): string
    requires NamesPresentUpTo(args, j + 1) && j < |types|
  {
    QuoteIdent(args[2 * j].value, keywords) + " = " + Param(j, types[j])
  }

  /** The items of the pairs lo .. hi-1. */
  function ItemList(args: seq<Option<string>>, types: seq<string>, keywords: set<string>, lo: nat, hi: nat): (r: seq<string>)
    requires lo <= hi && NamesPresentUpTo(args, hi) && hi <= |types|
    ensures |r| == hi - lo
    decreases hi
  {
    if hi == lo then [] else ItemList(args, types, keywords, lo, hi - 1) + [Item(args, types, keywords, hi - 1)]
  }

  lemma ItemListSnoc(args: seq<Option<string>>, types: seq<string>, keywords: set<string>, lo: nat, hi: nat)
    requires lo < hi && NamesPresentUpTo(args, hi) && hi <= |types|
    ensures NamesPresentUpTo(args, hi - 1)
    ensures ItemList(args, types, keywords, lo, hi) == ItemList(args, types, keywords, lo, hi - 1) + [Item(args, types, keywords, hi - 1)]
  {
  }

  /** Joining the items of pairs lo .. hi-1 adds the last one after sep. */
  lemma JoinItemsSnoc(sep: string, args: seq<Option<string>>, types: seq<string>, keywords: set<string>, lo: nat, hi: nat)
    requires lo < hi && NamesPresentUpTo(args, hi) && hi <= |types|
    ensures NamesPresentUpTo(args, hi - 1)
    ensures Join(sep, ItemList(args, types, keywords, lo, hi))
         == if hi - 1 == lo then Item(args, types, keywords, lo)
            else Join(sep, ItemList(args, types, keywords, lo, hi - 1)) + sep + Item(args, types, keywords, hi - 1)
  {
    ItemListSnoc(args, types, keywords, lo, hi);
    JoinSnoc(sep, ItemList(args, types, keywords, lo, hi - 1), Item(args, types, keywords, hi - 1));
  }

  /** The parameter values: the value of every pair, in pair order. */
  function ParamValues(args: seq<Option<string>>): (r: seq<Option<string>>)
    ensures |r| == |args| / 2
    ensures forall j :: 0 <= j < |r| ==> r[j] == args[2 * j + 1]
  {
    seq(|args| / 2, j requires 0 <= j < |args| / 2 => args[2 * j + 1])
  }

  function NullFlag(v: Option<string>): char { if v.None? then 'n' else ' ' }

  /** The nulls vector: 'n' exactly for the pairs whose value is NULL. */
  function NullsVector(args: seq<Option<string>>): (r: string)
    ensures |r| == |args| / 2
    ensures forall j :: 0 <= j < |r| ==> (r[j] == 'n' <==> args[2 * j + 1].None?) && (r[j] == 'n' || r[j] == ' ')
  {
    seq(|args| / 2, j requires 0 <= j < |args| / 2 => NullFlag(args[2 * j + 1]))
  }

  // ---------------------------------------------------------------------
  // The statements.
  // ---------------------------------------------------------------------

  /** INSERT INTO ns.rel (c1, c2) VALUES ($1::t1, $2::t2); -- every name is
      checked for NULL before any type is looked up. */
  function InsertStatement(nsp: string, rel: string, args: seq<Option<string>>, typeOf: TypeLookup, keywords: set<string>): Result<Statement, SynthError>
    requires |args| % 2 == 0
  {
    var m := |args| / 2;
    if !NamesPresentUpTo(args, m) then Err(NullColumnName)
    else
      match PairTypes(args, typeOf, m)
      case Err(e) => Err(e)
      case Ok(types) =>
        Ok(Statement("INSERT INTO " + Target(nsp, rel, keywords) + " (" + Join(", ", ColumnList(args, keywords, m))
                     + ") VALUES (" + Join(", ", ParamList(types, m)) + ");",
                     ParamValues(args), NullsVector(args)))
  }

  /** DELETE FROM ONLY ns.rel WHERE c1 = $1::t1 AND c2 = $2::t2; */
  function DeleteStatement(nsp: string, rel: string, args: seq<Option<string>>, typeOf: TypeLookup, keywords: set<string>): Result<Statement, SynthError>
    requires |args| % 2 == 0
  {
    var m := |args| / 2;
    match PairTypes(args, typeOf, m)
    case Err(e) => Err(e)
    case Ok(types) =>
      Ok(Statement("DELETE FROM ONLY " + Target(nsp, rel, keywords) + " WHERE " + Join(" AND ", ItemList(args, types, keywords, 0, m)) + ";",
                   ParamValues(args), NullsVector(args)))
  }

  /** The text the UPDATE loop writes before the separator of pair j, for
      cmdupdncols n: with n == 0 the source writes "<column> = <column>"
      for every pair, the corrected form (fixed) for the first pair only. */
  function SelfAssign(args: seq<Option<string>>, keywords: set<string>, n: int, j: nat, fixed: bool): string
    requires NamesPresentUpTo(args, j + 1)
  {
    var q := QuoteIdent(args[2 * j].value, keywords);
    if n == 0 && (!fixed || j == 0) then q + " = " + q else ""
  }

  function SelfAssignList(args: seq<Option<string>>, keywords: set<string>, n: int, i: nat, fixed: bool): (r: seq<string>)
    requires NamesPresentUpTo(args, i)
    ensures |r| == i
  {
    if i == 0 then [] else SelfAssignList(args, keywords, n, i - 1, fixed) + [SelfAssign(args, keywords, n, i - 1, fixed)]
  }

  /** The number of leading pairs the UPDATE loop treats as SET items. The
      loop compares the argument index of pair j, 2j, with the int product
      cmdupdncols * 2, which wraps on the usual targets. */
  function SetCount(cmdupdncols: int): (k: int)
    ensures 2 * k == Wrap32(2 * cmdupdncols)
  {
    DoubleWrap(cmdupdncols);
    Wrap32(2 * cmdupdncols) / 2
  }

  /** Wrapping 2n to 32 bits is twice wrapping n to 31 bits. */
  lemma DoubleWrap(n: int)
    ensures Wrap32(2 * n) == 2 * ((n + 0x4000_0000) % 0x8000_0000 - 0x4000_0000)
  {
    var a := n + 0x4000_0000;
    var q := a / 0x8000_0000;
    var r := a % 0x8000_0000;
    assert 2 * n - Int32Min == q * 0x1_0000_0000 + 2 * r;
    ModUnique(2 * n - Int32Min, q, 2 * r);
  }

  lemma ModUnique(y: int, q: int, r: int)
    requires y == q * 0x1_0000_0000 + r && 0 <= r < 0x1_0000_0000
    ensures y % 0x1_0000_0000 == r
  {
    var q' := y / 0x1_0000_0000;
    assert (q - q') * 0x1_0000_0000 == y % 0x1_0000_0000 - r;
  }

  /** Below 2^30 in magnitude the product does not wrap. */
  lemma SetCountNoWrap(cmdupdncols: int)
    requires -0x4000_0000 <= cmdupdncols < 0x4000_0000
    ensures SetCount(cmdupdncols) == cmdupdncols
  {
  }

  /** At 2^30 it wraps to -2^31: no pair is a SET item and none is at the
      WHERE boundary. */
  lemma SetCountWraps()
    ensures SetCount(0x4000_0000) == -0x4000_0000
  {
    assert Wrap32(0x8000_0000) == Int32Min;
  }

  /** What separates pair j from what precedes it: nothing before the
      first SET item, ", " between SET items, " WHERE " exactly at pair n
      and " AND " between WHERE items. */
  function Separator(n: int, j: nat): string
  {
    if j < n then (if j > 0 then ", " else "")
    else if j == n then " WHERE "
    else " AND "
  }

  /** The text the UPDATE loop has written after the first i pairs, given
      each pair's self-assignment text and comparison or assignment. */
  function Assemble(selfs: seq<string>, items: seq<string>, n: int, i: nat): string
    requires i <= |selfs| && i <= |items|
  {
    if i == 0 then "" else Assemble(selfs, items, n, i - 1) + (selfs[i - 1] + Separator(n, i - 1) + items[i - 1])
  }

  /** The text between SET and the final semicolon. */
  function UpdateBody(args: seq<Option<string>>, types: seq<string>, keywords: set<string>, n: int, fixed: bool): string
    requires NamesPresentUpTo(args, |types|)
  {
    UpdateText(args, types, keywords, n, SetCount(n), fixed)
  }

  /** The same text for a given SET count k. */
  function UpdateText(args: seq<Option<string>>, types: seq<string>, keywords: set<string>, n: int, k: int, fixed: bool): string
    requires NamesPresentUpTo(args, |types|)
  {
    Assemble(SelfAssignList(args, keywords, n, |types|, fixed), ItemList(args, types, keywords, 0, |types|), k, |types|)
  }

  /** UPDATE ONLY ns.rel SET ... WHERE ...; built pair by pair. */
  function UpdateStatement(nsp: string, rel: string, cmdupdncols: int, args: seq<Option<string>>, typeOf: TypeLookup, keywords: set<string>, fixed: bool): Result<Statement, SynthError>
    requires |args| % 2 == 0
  {
    var m := |args| / 2;
    match PairTypes(args, typeOf, m)
    case Err(e) => Err(e)
    case Ok(types) =>
      Ok(Statement("UPDATE ONLY " + Target(nsp, rel, keywords) + " SET " + UpdateBody(args, types, keywords, cmdupdncols, fixed) + ";",
                   ParamValues(args), NullsVector(args)))
  }

  /** SELECT c.TruncateOnlyTable(c.slon_quote_brute($1) || '.' || c.slon_quote_brute($2));
      with the namespace and table name as its two text parameters. */
  function TruncateStatement(cluster: string, nsp: string, rel: string, keywords: set<string>): Statement
  {
    var c := QuoteIdent(cluster, keywords);
    Statement("SELECT " + c + ".TruncateOnlyTable(" + c + ".slon_quote_brute($1) || '.' || " + c + ".slon_quote_brute($2));",
              [Some(nsp), Some(rel)], "  ")
  }

  /** The statement for one data log row, with the UPDATE text as the
      source writes it (see UpdateBodyAsWrittenLonger). */
  function SynthesizeSpec(cmdtype: char, cluster: string, nsp: string, rel: string, cmdupdncols: int,
                          args: seq<Option<string>>, typeOf: TypeLookup, keywords: set<string>): Result<Statement, SynthError>
    requires cmdtype in "IUD" ==> |args| % 2 == 0
  {
    if cmdtype == 'I' then InsertStatement(nsp, rel, args, typeOf, keywords)
    else if cmdtype == 'U' then UpdateStatement(nsp, rel, cmdupdncols, args, typeOf, keywords, false)
    else if cmdtype == 'D' then DeleteStatement(nsp, rel, args, typeOf, keywords)
    else if cmdtype == 'T' then Ok(TruncateStatement(cluster, nsp, rel, keywords))
    else Err(UnhandledCmdType(cmdtype))
  }

  /** An unknown command type is an error; a TRUNCATE always has the
      namespace and table name as its two non-NULL parameters. */
  lemma SynthesizeOtherTypes(cmdtype: char, cluster: string, nsp: string, rel: string, cmdupdncols: int,
                             args: seq<Option<string>>, typeOf: TypeLookup, keywords: set<string>)
    requires cmdtype !in "IUD"
    ensures cmdtype != 'T' ==> SynthesizeSpec(cmdtype, cluster, nsp, rel, cmdupdncols, args, typeOf, keywords) == Err(UnhandledCmdType(cmdtype))
    ensures cmdtype == 'T' ==> SynthesizeSpec(cmdtype, cluster, nsp, rel, cmdupdncols, args, typeOf, keywords).Ok?
    ensures cmdtype == 'T' ==> SynthesizeSpec(cmdtype, cluster, nsp, rel, cmdupdncols, args, typeOf, keywords).value.values == [Some(nsp), Some(rel)]
    ensures cmdtype == 'T' ==> SynthesizeSpec(cmdtype, cluster, nsp, rel, cmdupdncols, args, typeOf, keywords).value.nulls == "  "
  {
  }

  /** An INSERT, UPDATE or DELETE fails exactly when some pair has a NULL
      column name or a column of unknown type. */
  lemma SynthesizeErrors(cmdtype: char, cluster: string, nsp: string, rel: string, cmdupdncols: int,
                         args: seq<Option<string>>, typeOf: TypeLookup, keywords: set<string>)
    requires cmdtype in "IUD" && |args| % 2 == 0
    ensures SynthesizeSpec(cmdtype, cluster, nsp, rel, cmdupdncols, args, typeOf, keywords).Err?
        <==> exists j :: 0 <= j < |args| / 2 && (args[2 * j].None? || typeOf(args[2 * j].value).None?)
  {
    var m := |args| / 2;
    PairTypesMeaning(args, typeOf, m);
    if cmdtype == 'I' && !NamesPresentUpTo(args, m) {
      var j :| 0 <= j < m && args[2 * j].None?;
    }
  }

  /** A successful INSERT, UPDATE or DELETE has one parameter per pair:
      parameter j is the value of pair j, flagged 'n' in the nulls vector
      exactly when it is NULL. */
  lemma SynthesizeParams(cmdtype: char, cluster: string, nsp: string, rel: string, cmdupdncols: int,
                         args: seq<Option<string>>, typeOf: TypeLookup, keywords: set<string>)
    requires cmdtype in "IUD" && |args| % 2 == 0
    requires SynthesizeSpec(cmdtype, cluster, nsp, rel, cmdupdncols, args, typeOf, keywords).Ok?
    ensures var st := SynthesizeSpec(cmdtype, cluster, nsp, rel, cmdupdncols, args, typeOf, keywords).value;
      && |st.values| == |st.nulls| == |args| / 2
      && forall j :: 0 <= j < |args| / 2 ==> st.values[j] == args[2 * j + 1] && (st.nulls[j] == 'n' <==> args[2 * j + 1].None?)
  {
    SynthesizeTail(cmdtype, cluster, nsp, rel, cmdupdncols, args, typeOf, keywords);
  }

  /** The parameters of a successful INSERT, UPDATE or DELETE. */
  lemma SynthesizeTail(cmdtype: char, cluster: string, nsp: string, rel: string, cmdupdncols: int,
                       args: seq<Option<string>>, typeOf: TypeLookup, keywords: set<string>)
    requires cmdtype in "IUD" && |args| % 2 == 0
    requires SynthesizeSpec(cmdtype, cluster, nsp, rel, cmdupdncols, args, typeOf, keywords).Ok?
    ensures SynthesizeSpec(cmdtype, cluster, nsp, rel, cmdupdncols, args, typeOf, keywords).value.values == ParamValues(args)
    ensures SynthesizeSpec(cmdtype, cluster, nsp, rel, cmdupdncols, args, typeOf, keywords).value.nulls == NullsVector(args)
  {
  }

  // ---------------------------------------------------------------------
  // The shape of the UPDATE text.
  // ---------------------------------------------------------------------

  /** With no self-assignment text, the pairs before n are comma-separated
      SET items. */
  lemma {:induction false} AssembleSet(selfs: seq<string>, items: seq<string>, n: int, i: nat)
    requires i <= |selfs| && i <= |items| && i <= n
    requires forall j :: 0 <= j < i ==> selfs[j] == ""
    ensures Assemble(selfs, items, n, i) == Join(", ", items[..i])
  {
    if i > 0 {
      AssembleSet(selfs, items, n, i - 1);
      assert items[..i] == items[..i - 1] + [items[i - 1]];
      JoinSnoc(", ", items[..i - 1], items[i - 1]);
      assert selfs[i - 1] + Separator(n, i - 1) + items[i - 1] == (if i - 1 > 0 then ", " else "") + items[i - 1];
    }
  }

  /** A pair without self-assignment text adds its separator and item. */
  lemma AssembleNoSelf(selfs: seq<string>, items: seq<string>, n: int, i: nat)
    requires 0 < i <= |selfs| && i <= |items| && selfs[i - 1] == ""
    ensures Assemble(selfs, items, n, i) == Assemble(selfs, items, n, i - 1) + (Separator(n, i - 1) + items[i - 1])
  {
  }

  /** Extending a slice of a separated list by the next item. */
  lemma JoinSliceSnoc(sep: string, items: seq<string>, lo: nat, hi: nat)
    requires lo < hi < |items|
    ensures Join(sep, items[lo..hi + 1]) == Join(sep, items[lo..hi]) + sep + items[hi]
  {
    SliceSnoc(items, lo, hi);
    JoinSnoc(sep, items[lo..hi], items[hi]);
  }

  /** With no self-assignment text and 0 < n < i, " WHERE " comes exactly
      before pair n and the later pairs are joined by AND. */
  lemma {:induction false} AssembleWhere(selfs: seq<string>, items: seq<string>, n: int, i: nat)
    requires i <= |selfs| && i <= |items| && 0 < n < i
    requires forall j :: 0 <= j < i ==> selfs[j] == ""
    ensures Assemble(selfs, items, n, i) == Join(", ", items[..n]) + " WHERE " + Join(" AND ", items[n..i])
  {
    var setPart := Join(", ", items[..n]);
    var k := i - 1;
    AssembleNoSelf(selfs, items, n, i);
    if k == n {
      AssembleSet(selfs, items, n, n);
      WhereFirst(setPart, items, n);
    } else {
      AssembleWhere(selfs, items, n, k);
      WhereNext(setPart + " WHERE ", items, n, k);
    }
  }

  /** The text up to and including the first WHERE item. */
  lemma WhereFirst(setPart: string, items: seq<string>, n: nat)
    requires n < |items|
    ensures setPart + (Separator(n, n) + items[n]) == setPart + " WHERE " + Join(" AND ", items[n..n + 1])
  {
    assert items[n..n + 1] == [items[n]];
    Assoc(setPart, " WHERE ", items[n]);
  }

  /** Every later WHERE item is appended after " AND ". */
  lemma WhereNext(pre: string, items: seq<string>, n: nat, k: nat)
    requires n < k < |items|
    ensures pre + Join(" AND ", items[n..k]) + (Separator(n, k) + items[k]) == pre + Join(" AND ", items[n..k + 1])
  {
    JoinSliceSnoc(" AND ", items, n, k);
    var rest := Join(" AND ", items[n..k]);
    Assoc(pre, rest, " AND " + items[k]);
    Assoc(rest, " AND ", items[k]);
  }

  /** With n == 0 and self-assignment text on the first pair only, that
      text is followed by a WHERE clause over all pairs. */
  lemma {:induction false} AssembleNoSet(selfs: seq<string>, items: seq<string>, i: nat)
    requires i <= |selfs| && i <= |items| && 0 < i
    requires forall j :: 0 < j < i ==> selfs[j] == ""
    ensures Assemble(selfs, items, 0, i) == selfs[0] + " WHERE " + Join(" AND ", items[..i])
  {
    var x := items[i - 1];
    assert items[..i] == items[..i - 1] + [x];
    if i == 1 {
      assert Assemble(selfs, items, 0, 0) == "";
    } else {
      AssembleNoSet(selfs, items, i - 1);
      assert selfs[i - 1] + Separator(0, i - 1) + x == " AND " + x;
      JoinSnoc(" AND ", items[..i - 1], x);
      var pre := selfs[0] + " WHERE ";
      var rest := Join(" AND ", items[..i - 1]);
      assert (pre + rest) + (" AND " + x) == pre + (rest + " AND " + x);
    }
  }

  /** With n < 0 no pair is a SET item or at the WHERE boundary: every
      pair, the first included, is written after " AND ". */
  lemma {:induction false} AssembleAllAnd(selfs: seq<string>, items: seq<string>, n: int, i: nat)
    requires i <= |selfs| && i <= |items| && 0 < i && n < 0
    requires forall j :: 0 <= j < i ==> selfs[j] == ""
    ensures Assemble(selfs, items, n, i) == " AND " + Join(" AND ", items[..i])
  {
    var x := items[i - 1];
    assert items[..i] == items[..i - 1] + [x];
    AssembleNoSelf(selfs, items, n, i);
    if i == 1 {
      assert items[..1] == [x];
    } else {
      AssembleAllAnd(selfs, items, n, i - 1);
      JoinSnoc(" AND ", items[..i - 1], x);
      var rest := Join(" AND ", items[..i - 1]);
      Assoc(" AND " + rest, " AND ", x);
      Assoc(" AND ", rest, " AND " + x);
      Assoc(rest, " AND ", x);
    }
  }

  /** Self-assignment texts at least as long give a text at least as long,
      and strictly longer once one of them is. */
  lemma {:induction false} AssembleLonger(s1: seq<string>, s2: seq<string>, items: seq<string>, n: int, i: nat)
    requires i <= |s1| && i <= |s2| && i <= |items|
    requires forall j :: 0 <= j < i ==> |s1[j]| >= |s2[j]|
    ensures |Assemble(s1, items, n, i)| >= |Assemble(s2, items, n, i)|
    ensures (exists j :: 0 <= j < i && |s1[j]| > |s2[j]|) ==> |Assemble(s1, items, n, i)| > |Assemble(s2, items, n, i)|
  {
    if i > 0 {
      AssembleLonger(s1, s2, items, n, i - 1);
    }
  }

  /** Without the "<column> = <column>" text on every pair, the two forms
      of the loop write the same text. */
  lemma {:induction false} AssembleAgree(s1: seq<string>, s2: seq<string>, items: seq<string>, n: int, i: nat)
    requires i <= |s1| && i <= |s2| && i <= |items|
    requires s1[..i] == s2[..i]
    ensures Assemble(s1, items, n, i) == Assemble(s2, items, n, i)
  {
    if i > 0 {
      assert s1[..i - 1] == s2[..i - 1] && s1[i - 1] == s1[..i][i - 1];
      AssembleAgree(s1, s2, items, n, i - 1);
    }
  }

  lemma {:induction false} SelfAssignListAt(args: seq<Option<string>>, keywords: set<string>, n: int, i: nat, fixed: bool, j: nat)
    requires NamesPresentUpTo(args, i) && j < i
    ensures NamesPresentUpTo(args, j + 1)
    ensures SelfAssignList(args, keywords, n, i, fixed)[j] == SelfAssign(args, keywords, n, j, fixed)
  {
    if j < i - 1 {
      SelfAssignListAt(args, keywords, n, i - 1, fixed, j);
    }
  }

  lemma {:induction false} ItemListAt(args: seq<Option<string>>, types: seq<string>, keywords: set<string>, hi: nat, j: nat)
    requires NamesPresentUpTo(args, hi) && hi <= |types| && j < hi
    ensures NamesPresentUpTo(args, j + 1)
    ensures ItemList(args, types, keywords, 0, hi)[j] == Item(args, types, keywords, j)
  {
    if j < hi - 1 {
      ItemListAt(args, types, keywords, hi - 1, j);
    }
  }

  /** The UPDATE text for a row with 0 < k < number of pairs, where k is
      SetCount(cmdupdncols) (cmdupdncols itself below 2^30): SET over the
      first k pairs, joined by commas, then WHERE over the rest, joined by
      AND; with k >= number of pairs there is no WHERE clause. Both forms
      of the loop agree here. */
  lemma UpdateBodyShape(args: seq<Option<string>>, types: seq<string>, keywords: set<string>, n: int, fixed: bool)
    requires NamesPresentUpTo(args, |types|) && 0 < SetCount(n)
    ensures var items := ItemList(args, types, keywords, 0, |types|);
      var k := SetCount(n);
      UpdateBody(args, types, keywords, n, fixed)
      == if k < |types| then Join(", ", items[..k]) + " WHERE " + Join(" AND ", items[k..])
         else Join(", ", items)
  {
    SetCountNoWrap(0);
    UpdateTextShape(args, types, keywords, n, SetCount(n), fixed);
  }

  lemma UpdateTextShape(args: seq<Option<string>>, types: seq<string>, keywords: set<string>, n: int, k: int, fixed: bool)
    requires NamesPresentUpTo(args, |types|) && n != 0 && 0 < k
    ensures var items := ItemList(args, types, keywords, 0, |types|);
      UpdateText(args, types, keywords, n, k, fixed)
      == if k < |types| then Join(", ", items[..k]) + " WHERE " + Join(" AND ", items[k..])
         else Join(", ", items)
  {
    var m := |types|;
    var selfs := SelfAssignList(args, keywords, n, m, fixed);
    var items := ItemList(args, types, keywords, 0, m);
    forall j | 0 <= j < m
      ensures selfs[j] == ""
    {
      SelfAssignListAt(args, keywords, n, m, fixed, j);
    }
    if k < m {
      AssembleWhere(selfs, items, k, m);
      assert items[k..m] == items[k..];
    } else {
      AssembleSet(selfs, items, k, m);
      assert items[..m] == items;
    }
  }

  /** The UPDATE text for a negative cmdupdncols, or one from 2^30 up whose
      product with 2 wraps below zero: no SET item and no WHERE, only the
      pairs each after " AND ", so the statement is not valid SQL. */
  lemma UpdateBodyAllAnd(args: seq<Option<string>>, types: seq<string>, keywords: set<string>, n: int, fixed: bool)
    requires NamesPresentUpTo(args, |types|) && 0 < |types| && SetCount(n) < 0
    ensures UpdateBody(args, types, keywords, n, fixed)
         == " AND " + Join(" AND ", ItemList(args, types, keywords, 0, |types|))
  {
    var m := |types|;
    var selfs := SelfAssignList(args, keywords, n, m, fixed);
    var items := ItemList(args, types, keywords, 0, m);
    SetCountNoWrap(0);
    forall j | 0 <= j < m
      ensures selfs[j] == ""
    {
      SelfAssignListAt(args, keywords, n, m, fixed, j);
    }
    AssembleAllAnd(selfs, items, SetCount(n), m);
    assert items[..m] == items;
  }

  /** The corrected UPDATE text for a row with cmdupdncols == 0 and at
      least one pair: "<first key> = <first key>" and a WHERE clause over
      all pairs. */
  lemma FixedUpdateBodyNoSet(args: seq<Option<string>>, types: seq<string>, keywords: set<string>)
    requires NamesPresentUpTo(args, |types|) && 0 < |types| && args[0].Some?
    ensures UpdateBody(args, types, keywords, 0, true)
         == QuoteIdent(args[0].value, keywords) + " = " + QuoteIdent(args[0].value, keywords)
            + " WHERE " + Join(" AND ", ItemList(args, types, keywords, 0, |types|))
  {
    var m := |types|;
    var selfs := SelfAssignList(args, keywords, 0, m, true);
    var items := ItemList(args, types, keywords, 0, m);
    forall j | 0 <= j < m
      ensures selfs[j] == SelfAssign(args, keywords, 0, j, true)
    {
      SelfAssignListAt(args, keywords, 0, m, true, j);
    }
    SetCountNoWrap(0);
    AssembleNoSet(selfs, items, m);
    assert items[..m] == items;
  }

  /** The source's and the corrected loop write the same UPDATE unless
      cmdupdncols == 0 and there is more than one pair. */
  lemma UpdateBodyAgrees(args: seq<Option<string>>, types: seq<string>, keywords: set<string>, n: int)
    requires NamesPresentUpTo(args, |types|)
    requires n != 0 || |types| <= 1
    ensures UpdateBody(args, types, keywords, n, false) == UpdateBody(args, types, keywords, n, true)
  {
    var m := |types|;
    var s1 := SelfAssignList(args, keywords, n, m, false);
    var s2 := SelfAssignList(args, keywords, n, m, true);
    forall j | 0 <= j < m
      ensures s1[j] == s2[j]
    {
      SelfAssignListAt(args, keywords, n, m, false, j);
      SelfAssignListAt(args, keywords, n, m, true, j);
    }
    assert s1[..m] == s2[..m];
    AssembleAgree(s1, s2, ItemList(args, types, keywords, 0, m), SetCount(n), m);
  }

  /** With cmdupdncols == 0 and two or more pairs the source's UPDATE text
      is longer than the corrected one: every pair after the first adds a
      "<column> = <column>" that follows the previous placeholder with no
      separator, so the statement is not valid SQL. */
  lemma UpdateBodyAsWrittenLonger(args: seq<Option<string>>, types: seq<string>, keywords: set<string>)
    requires NamesPresentUpTo(args, |types|) && |types| >= 2
    ensures |UpdateBody(args, types, keywords, 0, false)| > |UpdateBody(args, types, keywords, 0, true)|
  {
    var m := |types|;
    var s1 := SelfAssignList(args, keywords, 0, m, false);
    var s2 := SelfAssignList(args, keywords, 0, m, true);
    forall j | 0 <= j < m
      ensures |s1[j]| >= |s2[j]|
    {
      SelfAssignListAt(args, keywords, 0, m, false, j);
      SelfAssignListAt(args, keywords, 0, m, true, j);
    }
    SelfAssignListAt(args, keywords, 0, m, false, 1);
    SelfAssignListAt(args, keywords, 0, m, true, 1);
    assert |s1[1]| > |s2[1]|;
    AssembleLonger(s1, s2, ItemList(args, types, keywords, 0, m), SetCount(0), m);
  }

  /** The source's UPDATE for a row with no SET pair and two key pairs
      (an UPDATE that changed nothing on a table with a two-column key):
      "b = b" is glued onto the first placeholder's type name. */
  lemma UpdateNoChangeTwoKeys(typeOf: TypeLookup)
    requires typeOf("a") == Some("int4") && typeOf("b") == Some("int4")
    ensures UpdateStatement("public", "t", 0, [Some("a"), Some("1"), Some("b"), Some("2")], typeOf, {}, false)
         == Ok(Statement("UPDATE ONLY public.t SET " + "a = a WHERE a = $1::int4b = b AND b = $2::int4" + ";",
                         [Some("1"), Some("2")], "  "))
  {
    var args := [Some("a"), Some("1"), Some("b"), Some("2")];
    var types := ["int4", "int4"];
    TwoKeysTypes(args, typeOf);
    TwoKeysBody(args, types);
    TwoKeysHeader();
    TwoKeysParams(args);
    UpdateStatementOk("public", "t", 0, args, typeOf, {}, false, types);
  }

  /** The statement of an UPDATE row whose pairs all have a name and a type. */
  lemma UpdateStatementOk(nsp: string, rel: string, cmdupdncols: int, args: seq<Option<string>>, typeOf: TypeLookup,
                          keywords: set<string>, fixed: bool, types: seq<string>)
    requires |args| % 2 == 0 && PairTypes(args, typeOf, |args| / 2) == Ok(types)
    ensures NamesPresentUpTo(args, |types|)
    ensures UpdateStatement(nsp, rel, cmdupdncols, args, typeOf, keywords, fixed)
         == Ok(Statement("UPDATE ONLY " + Target(nsp, rel, keywords) + " SET " + UpdateBody(args, types, keywords, cmdupdncols, fixed) + ";",
                         ParamValues(args), NullsVector(args)))
  {
  }

  lemma TwoKeysHeader()
    ensures "UPDATE ONLY " + Target("public", "t", {}) + " SET " == "UPDATE ONLY public.t SET "
  {
    assert IsPlainIdent("public", {}) && IsPlainIdent("t", {});
  }

  lemma TwoKeysParams(args: seq<Option<string>>)
    requires args == [Some("a"), Some("1"), Some("b"), Some("2")]
    ensures ParamValues(args) == [Some("1"), Some("2")] && NullsVector(args) == "  "
  {
  }

  lemma TwoKeysTypes(args: seq<Option<string>>, typeOf: TypeLookup)
    requires args == [Some("a"), Some("1"), Some("b"), Some("2")]
    requires typeOf("a") == Some("int4") && typeOf("b") == Some("int4")
    ensures PairTypes(args, typeOf, 2) == Ok(["int4", "int4"])
  {
    assert args[0] == Some("a") && args[2] == Some("b");
    assert PairTypes(args, typeOf, 0) == Ok([]);
    assert [] + ["int4"] == ["int4"];
    assert PairTypes(args, typeOf, 1) == Ok(["int4"]);
    assert ["int4"] + ["int4"] == ["int4", "int4"];
  }

  lemma TwoKeysBody(args: seq<Option<string>>, types: seq<string>)
    requires args == [Some("a"), Some("1"), Some("b"), Some("2")] && types == ["int4", "int4"]
    ensures NamesPresentUpTo(args, 2)
    ensures UpdateBody(args, types, {}, 0, false) == "a = a WHERE a = $1::int4b = b AND b = $2::int4"
  {
    var kw: set<string> := {};
    TwoKeysSelfs(args);
    TwoKeysItems(args, types);
    AssembleTwo("a = a", "b = b", "a = $1::int4", "b = $2::int4");
    TwoKeysText();
  }

  lemma TwoKeysText()
    ensures "a = a" + " WHERE " + "a = $1::int4" + ("b = b" + " AND " + "b = $2::int4")
         == "a = a WHERE a = $1::int4b = b AND b = $2::int4"
  {
  }

  lemma AssembleTwo(s0: string, s1: string, i0: string, i1: string)
    ensures Assemble([s0, s1], [i0, i1], 0, 2) == s0 + " WHERE " + i0 + (s1 + " AND " + i1)
  {
    assert Assemble([s0, s1], [i0, i1], 0, 1) == "" + (s0 + " WHERE " + i0);
  }

  lemma TwoKeysSelfs(args: seq<Option<string>>)
    requires args == [Some("a"), Some("1"), Some("b"), Some("2")]
    ensures NamesPresentUpTo(args, 2)
    ensures SelfAssignList(args, {}, 0, 2, false) == ["a = a", "b = b"]
  {
    var kw: set<string> := {};
    assert args[0] == Some("a") && args[2] == Some("b");
    assert QuoteIdent("a", kw) == "a" by { assert IsPlainIdent("a", kw); }
    assert QuoteIdent("b", kw) == "b" by { assert IsPlainIdent("b", kw); }
    assert SelfAssign(args, kw, 0, 0, false) == "a = a";
    assert SelfAssign(args, kw, 0, 1, false) == "b = b";
    assert SelfAssignList(args, kw, 0, 1, false) == ["a = a"];
  }

  lemma TwoKeysItems(args: seq<Option<string>>, types: seq<string>)
    requires args == [Some("a"), Some("1"), Some("b"), Some("2")] && types == ["int4", "int4"]
    ensures NamesPresentUpTo(args, 2)
    ensures ItemList(args, types, {}, 0, 2) == ["a = $1::int4", "b = $2::int4"]
  {
    var kw: set<string> := {};
    assert args[0] == Some("a") && args[2] == Some("b");
    assert QuoteIdent("a", kw) == "a" by { assert IsPlainIdent("a", kw); }
    assert QuoteIdent("b", kw) == "b" by { assert IsPlainIdent("b", kw); }
    assert Param(0, "int4") == "$1::int4" by { assert NatToString(1) == "1"; }
    assert Param(1, "int4") == "$2::int4" by { assert NatToString(2) == "2"; }
    assert Item(args, types, kw, 0) == "a = $1::int4";
    assert Item(args, types, kw, 1) == "b = $2::int4";
    assert ItemList(args, types, kw, 0, 1) == ["a = $1::int4"];
  }

  /** The lists of the first i pairs do not depend on later types. */
  lemma {:induction false} ParamListExtend(types: seq<string>, more: seq<string>, i: nat)
    requires i <= |types|
    ensures ParamList(types + more, i) == ParamList(types, i)
  {
    if i > 0 {
      ParamListExtend(types, more, i - 1);
      assert (types + more)[i - 1] == types[i - 1];
    }
  }

  lemma {:induction false} ItemListExtend(args: seq<Option<string>>, types: seq<string>, more: seq<string>, keywords: set<string>, i: nat)
    requires NamesPresentUpTo(args, i) && i <= |types|
    ensures ItemList(args, types + more, keywords, 0, i) == ItemList(args, types, keywords, 0, i)
  {
    if i > 0 {
      ItemListExtend(args, types, more, keywords, i - 1);
      assert (types + more)[i - 1] == types[i - 1];
    }
  }

  lemma {:induction false} AssembleExtend(selfs: seq<string>, items: seq<string>, s2: seq<string>, i2: seq<string>, n: int, i: nat)
    requires i <= |selfs| && i <= |items|
    ensures Assemble(selfs + s2, items + i2, n, i) == Assemble(selfs, items, n, i)
  {
    if i > 0 {
      AssembleExtend(selfs, items, s2, i2, n, i - 1);
      assert (selfs + s2)[i - 1] == selfs[i - 1] && (items + i2)[i - 1] == items[i - 1];
    }
  }

  // ---------------------------------------------------------------------
  // The synthesis loops.
  // ---------------------------------------------------------------------

  /** Sets parameter j from pair j: its value, and 'n' or ' ' in the nulls
      vector. */
  method SetParam(queryvals: array<Option<string>>, querynulls: array<char>, args: seq<Option<string>>, j: nat)
    requires 2 * j + 1 < |args| && j < queryvals.Length && j < querynulls.Length
    modifies queryvals, querynulls
    ensures queryvals[..] == old(queryvals[..])[j := args[2 * j + 1]]
    ensures querynulls[..] == old(querynulls[..])[j := NullFlag(args[2 * j + 1])]
  {
    queryvals[j] := args[2 * j + 1];
    querynulls[j] := NullFlag(args[2 * j + 1]);
  }

  /** Extending a separated list by one item appends the separator (unless
      the list was empty) and the item. */
  lemma JoinStep(sep: string, items: seq<string>, x: string)
    ensures Join(sep, items + [x]) == Join(sep, items) + ((if |items| == 0 then "" else sep) + x)
  {
    JoinSnoc(sep, items, x);
    if |items| > 0 {
      Assoc(Join(sep, items), sep, x);
    }
  }

  /** One pass of the column loop of INSERT. */
  lemma ColumnsStep(header: string, args: seq<Option<string>>, keywords: set<string>, i: nat)
    requires NamesPresentUpTo(args, i + 1)
    ensures header + Join(", ", ColumnList(args, keywords, i + 1))
         == header + Join(", ", ColumnList(args, keywords, i)) + ((if i == 0 then "" else ", ") + QuoteIdent(args[2 * i].value, keywords))
  {
    var x := QuoteIdent(args[2 * i].value, keywords);
    JoinStep(", ", ColumnList(args, keywords, i), x);
    Assoc(header, Join(", ", ColumnList(args, keywords, i)), (if i == 0 then "" else ", ") + x);
  }

  /** One pass of the placeholder loop of INSERT. */
  lemma ParamsStep(mid: string, types: seq<string>, t: string, i: nat)
    requires |types| == i
    ensures mid + Join(", ", ParamList(types + [t], i + 1))
         == mid + Join(", ", ParamList(types, i)) + ((if i == 0 then "" else ", ") + Param(i, t))
  {
    ParamListExtend(types, [t], i);
    JoinStep(", ", ParamList(types, i), Param(i, t));
    Assoc(mid, Join(", ", ParamList(types, i)), (if i == 0 then "" else ", ") + Param(i, t));
  }

  /** The items of the first i + 1 pairs once the type of pair i is known. */
  lemma ItemsStep(args: seq<Option<string>>, types: seq<string>, t: string, keywords: set<string>, i: nat)
    requires NamesPresentUpTo(args, i + 1) && |types| == i
    ensures ItemList(args, types + [t], keywords, 0, i + 1)
         == ItemList(args, types, keywords, 0, i) + [QuoteIdent(args[2 * i].value, keywords) + " = " + Param(i, t)]
  {
    ItemListExtend(args, types, [t], keywords, i);
  }

  /** One pass of the DELETE loop. */
  lemma DeleteStep(header: string, args: seq<Option<string>>, types: seq<string>, t: string, keywords: set<string>, i: nat)
    requires NamesPresentUpTo(args, i + 1) && |types| == i
    ensures header + Join(" AND ", ItemList(args, types + [t], keywords, 0, i + 1))
         == header + Join(" AND ", ItemList(args, types, keywords, 0, i))
            + ((if i > 0 then " AND " else "") + (QuoteIdent(args[2 * i].value, keywords) + " = " + Param(i, t)))
  {
    var item := QuoteIdent(args[2 * i].value, keywords) + " = " + Param(i, t);
    ItemsStep(args, types, t, keywords, i);
    JoinStep(" AND ", ItemList(args, types, keywords, 0, i), item);
    Assoc(header, Join(" AND ", ItemList(args, types, keywords, 0, i)), (if i > 0 then " AND " else "") + item);
  }

  /** One pass of the UPDATE loop. */
  lemma UpdateStep(header: string, args: seq<Option<string>>, types: seq<string>, t: string, keywords: set<string>, n: int, i: nat)
    requires NamesPresentUpTo(args, i + 1) && |types| == i
    ensures NamesPresentUpTo(args, |types + [t]|)
    ensures var q := QuoteIdent(args[2 * i].value, keywords);
      header + UpdateBody(args, types + [t], keywords, n, false)
      == header + UpdateBody(args, types, keywords, n, false)
         + ((if n == 0 then q + " = " + q else "") + Separator(SetCount(n), i) + (q + " = " + Param(i, t)))
  {
    UpdateTextStep(header, args, types, t, keywords, n, SetCount(n), i);
  }

  lemma UpdateTextStep(header: string, args: seq<Option<string>>, types: seq<string>, t: string, keywords: set<string>, n: int, k: int, i: nat)
    requires NamesPresentUpTo(args, i + 1) && |types| == i
    ensures NamesPresentUpTo(args, |types + [t]|)
    ensures var q := QuoteIdent(args[2 * i].value, keywords);
      header + UpdateText(args, types + [t], keywords, n, k, false)
      == header + UpdateText(args, types, keywords, n, k, false)
         + ((if n == 0 then q + " = " + q else "") + Separator(k, i) + (q + " = " + Param(i, t)))
  {
    var q := QuoteIdent(args[2 * i].value, keywords);
    var item := q + " = " + Param(i, t);
    var self := SelfAssign(args, keywords, n, i, false);
    var selfs := SelfAssignList(args, keywords, n, i, false);
    var items := ItemList(args, types, keywords, 0, i);
    assert SelfAssignList(args, keywords, n, i + 1, false) == selfs + [self];
    ItemsStep(args, types, t, keywords, i);
    AssembleSnoc(selfs, items, self, item, k);
    Assoc(header, Assemble(selfs, items, k, i), self + Separator(k, i) + item);
  }

  /** One more pair appended to the text. */
  lemma AssembleSnoc(selfs: seq<string>, items: seq<string>, self: string, item: string, k: int)
    requires |selfs| == |items|
    ensures Assemble(selfs + [self], items + [item], k, |selfs| + 1)
         == Assemble(selfs, items, k, |selfs|) + (self + Separator(k, |selfs|) + item)
  {
    AssembleExtend(selfs, items, [self], [item], k, |selfs|);
  }

  /** The name check and type lookup of pair i, which the DELETE and UPDATE
      loops do before writing anything for the pair. */
  method LookupPair(args: seq<Option<string>>, typeOf: TypeLookup, i: nat) returns (r: Result<string, SynthError>)
    requires 2 * i + 2 <= |args| && PairTypes(args, typeOf, i).Ok?
    ensures r.Err? ==> PairTypes(args, typeOf, i + 1) == Err(r.error)
    ensures r.Ok? ==> args[2 * i].Some? && PairTypes(args, typeOf, i + 1) == Ok(PairTypes(args, typeOf, i).value + [r.value])
  {
    if args[2 * i].None? {
      return Err(NullColumnName);
    }
    var colname := args[2 * i].value;
    var coltype := typeOf(colname);
    if coltype.None? {
      return Err(TypeLookupFailed(colname));
    }
    r := Ok(coltype.value);
  }

  /** The type lookup of pair i in the placeholder pass of INSERT, whose
      column names have all been checked already. */
  method LookupType(args: seq<Option<string>>, typeOf: TypeLookup, i: nat) returns (r: Result<string, SynthError>)
    requires NamesPresentUpTo(args, i + 1) && 2 * i + 2 <= |args| && PairTypes(args, typeOf, i).Ok?
    ensures r.Err? ==> PairTypes(args, typeOf, i + 1) == Err(r.error)
    ensures r.Ok? ==> PairTypes(args, typeOf, i + 1) == Ok(PairTypes(args, typeOf, i).value + [r.value])
  {
    var coltype := typeOf(args[2 * i].value);
    if coltype.None? {
      return Err(TypeLookupFailed(args[2 * i].value));
    }
    r := Ok(coltype.value);
  }

  /** The parameter arrays after the first i pairs have been set. */
  ghost predicate ParamsUpTo(queryvals: array<Option<string>>, querynulls: array<char>, args: seq<Option<string>>, i: nat)
    reads queryvals, querynulls
  {
    i <= queryvals.Length && i <= querynulls.Length && 2 * i <= |args|
    && forall j :: 0 <= j < i ==> queryvals[j] == args[2 * j + 1] && querynulls[j] == NullFlag(args[2 * j + 1])
  }

  /** Setting parameter i extends the parameters set so far. */
  method SetNextParam(queryvals: array<Option<string>>, querynulls: array<char>, args: seq<Option<string>>, i: nat)
    requires ParamsUpTo(queryvals, querynulls, args, i)
    requires 2 * i + 1 < |args| && i < queryvals.Length && i < querynulls.Length
    modifies queryvals, querynulls
    ensures ParamsUpTo(queryvals, querynulls, args, i + 1)
  {
    SetParam(queryvals, querynulls, args, i);
    assert forall j :: 0 <= j < i ==> queryvals[j] == old(queryvals[j]) && querynulls[j] == old(querynulls[j]);
  }

  /** Terminates the nulls vector and hands out what has been set. */
  method FinishParams(queryvals: array<Option<string>>, querynulls: array<char>, args: seq<Option<string>>)
    returns (values: seq<Option<string>>, nulls: string)
    requires |args| % 2 == 0 && queryvals.Length == |args| / 2 && querynulls.Length == |args| / 2 + 1
    requires ParamsUpTo(queryvals, querynulls, args, |args| / 2)
    modifies querynulls
    ensures values == ParamValues(args) && nulls == NullsVector(args)
  {
    var m := |args| / 2;
    querynulls[m] := '\0';
    values := queryvals[..];
    nulls := querynulls[..m];
    assert values == ParamValues(args);
    assert nulls == NullsVector(args);
  }

  /** The column pass of INSERT: appends the quoted column names, comma
      separated, to query; fails if a column name is NULL. */
  method InsertColumns(query0: string, args: seq<Option<string>>, keywords: set<string>) returns (r: Result<string, SynthError>)
    requires |args| % 2 == 0
    ensures r.Ok? <==> NamesPresentUpTo(args, |args| / 2)
    ensures r.Ok? ==> r.value == query0 + Join(", ", ColumnList(args, keywords, |args| / 2))
    ensures r.Err? ==> r.error == NullColumnName
  {
    var m := |args| / 2;
    var query := query0;
    var i := 0;
    while i < m
      invariant 0 <= i <= m
      invariant NamesPresentUpTo(args, i)
      invariant query == query0 + Join(", ", ColumnList(args, keywords, i))
    {
      if args[2 * i].None? {
        assert !NamesPresentUpTo(args, m);
        return Err(NullColumnName);
      }
      var colname := QuoteIdentifier(args[2 * i].value, keywords);
      ColumnsStep(query0, args, keywords, i);
      query := query + ((if i == 0 then "" else ", ") + colname);
      i := i + 1;
    }
    r := Ok(query);
  }

  /** The placeholder pass of INSERT: appends "$<j+1>::<type>" for every
      pair and sets its parameter; fails on a column of unknown type. */
  method InsertValues(query0: string, args: seq<Option<string>>, typeOf: TypeLookup,
                      queryvals: array<Option<string>>, querynulls: array<char>) returns (r: Result<string, SynthError>)
    requires |args| % 2 == 0 && NamesPresentUpTo(args, |args| / 2)
    requires queryvals.Length == |args| / 2 && querynulls.Length == |args| / 2 + 1
    modifies queryvals, querynulls
    ensures PairTypes(args, typeOf, |args| / 2).Err? ==> r == Err(PairTypes(args, typeOf, |args| / 2).error)
    ensures PairTypes(args, typeOf, |args| / 2).Ok? ==>
              r == Ok(query0 + Join(", ", ParamList(PairTypes(args, typeOf, |args| / 2).value, |args| / 2)))
              && ParamsUpTo(queryvals, querynulls, args, |args| / 2)
  {
    var m := |args| / 2;
    var query := query0;
    ghost var types: seq<string> := [];
    var i := 0;
    while i < m
      invariant 0 <= i <= m
      invariant PairTypes(args, typeOf, i) == Ok(types)
      invariant query == query0 + Join(", ", ParamList(types, i))
      invariant ParamsUpTo(queryvals, querynulls, args, i)
    {
      var coltype := LookupType(args, typeOf, i);
      if coltype.Err? {
        PairTypesErrSticky(args, typeOf, i + 1, m);
        return Err(coltype.error);
      }
      SetNextParam(queryvals, querynulls, args, i);
      ParamsStep(query0, types, coltype.value, i);
      query := query + ((if i == 0 then "" else ", ") + Param(i, coltype.value));
      types := types + [coltype.value];
      i := i + 1;
    }
    r := Ok(query);
  }

  /** The INSERT branch: a first pass writes the quoted column list, a
      second the placeholders. */
  method BuildInsert(nsp: string, rel: string, args: seq<Option<string>>, typeOf: TypeLookup, keywords: set<string>)
    returns (r: Result<Statement, SynthError>)
    requires |args| % 2 == 0
    ensures r == InsertStatement(nsp, rel, args, typeOf, keywords)
  {
    var m := |args| / 2;
    var queryvals := new Option<string>[m];
    var querynulls := new char[m + 1];
    var qn := QuoteIdentifier(nsp, keywords);
    var qr := QuoteIdentifier(rel, keywords);
    var target := qn + "." + qr;
    var columns := InsertColumns("INSERT INTO " + target + " (", args, keywords);
    if columns.Err? {
      return Err(columns.error);
    }
    var query := InsertValues(columns.value + ") VALUES (", args, typeOf, queryvals, querynulls);
    if query.Err? {
      return Err(query.error);
    }
    var values, nulls := FinishParams(queryvals, querynulls, args);
    r := Ok(Statement(query.value + ");", values, nulls));
  }

  /** The pass of DELETE: appends "<column> = $<j+1>::<type>" for every pair,
      joined by AND, and sets its parameter. */
  method DeleteConditions(query0: string, args: seq<Option<string>>, typeOf: TypeLookup, keywords: set<string>,
                          queryvals: array<Option<string>>, querynulls: array<char>) returns (r: Result<string, SynthError>)
    requires |args| % 2 == 0
    requires queryvals.Length == |args| / 2 && querynulls.Length == |args| / 2 + 1
    modifies queryvals, querynulls
    ensures PairTypes(args, typeOf, |args| / 2).Err? ==> r == Err(PairTypes(args, typeOf, |args| / 2).error)
    ensures PairTypes(args, typeOf, |args| / 2).Ok? ==>
              r == Ok(query0 + Join(" AND ", ItemList(args, PairTypes(args, typeOf, |args| / 2).value, keywords, 0, |args| / 2)))
              && ParamsUpTo(queryvals, querynulls, args, |args| / 2)
  {
    var m := |args| / 2;
    var query := query0;
    ghost var types: seq<string> := [];
    var i := 0;
    while i < m
      invariant 0 <= i <= m
      invariant PairTypes(args, typeOf, i) == Ok(types)
      invariant query == query0 + Join(" AND ", ItemList(args, types, keywords, 0, i))
      invariant ParamsUpTo(queryvals, querynulls, args, i)
    {
      var coltype := LookupPair(args, typeOf, i);
      if coltype.Err? {
        PairTypesErrSticky(args, typeOf, i + 1, m);
        return Err(coltype.error);
      }
      SetNextParam(queryvals, querynulls, args, i);
      var q := QuoteIdentifier(args[2 * i].value, keywords);
      DeleteStep(query0, args, types, coltype.value, keywords, i);
      query := query + ((if i > 0 then " AND " else "") + (q + " = " + Param(i, coltype.value)));
      types := types + [coltype.value];
      i := i + 1;
    }
    r := Ok(query);
  }

  /** The DELETE branch. */
  method BuildDelete(nsp: string, rel: string, args: seq<Option<string>>, typeOf: TypeLookup, keywords: set<string>)
    returns (r: Result<Statement, SynthError>)
    requires |args| % 2 == 0
    ensures r == DeleteStatement(nsp, rel, args, typeOf, keywords)
  {
    var m := |args| / 2;
    var queryvals := new Option<string>[m];
    var querynulls := new char[m + 1];
    var qn := QuoteIdentifier(nsp, keywords);
    var qr := QuoteIdentifier(rel, keywords);
    var target := qn + "." + qr;
    var query := DeleteConditions("DELETE FROM ONLY " + target + " WHERE ", args, typeOf, keywords, queryvals, querynulls);
    if query.Err? {
      return Err(query.error);
    }
    var values, nulls := FinishParams(queryvals, querynulls, args);
    r := Ok(Statement(query.value + ";", values, nulls));
  }

  /** The pass of UPDATE: SET items before pair SetCount(cmdupdncols),
      " WHERE " at it, AND-joined items after it, and with cmdupdncols == 0
      "<column> = <column>" before every pair; it sets each pair's
      parameter. */
  method UpdateClauses(query0: string, cmdupdncols: int, args: seq<Option<string>>, typeOf: TypeLookup, keywords: set<string>,
                       queryvals: array<Option<string>>, querynulls: array<char>) returns (r: Result<string, SynthError>)
    requires |args| % 2 == 0
    requires queryvals.Length == |args| / 2 && querynulls.Length == |args| / 2 + 1
    modifies queryvals, querynulls
    ensures PairTypes(args, typeOf, |args| / 2).Err? ==> r == Err(PairTypes(args, typeOf, |args| / 2).error)
    ensures PairTypes(args, typeOf, |args| / 2).Ok? ==>
              r == Ok(query0 + UpdateBody(args, PairTypes(args, typeOf, |args| / 2).value, keywords, cmdupdncols, false))
              && ParamsUpTo(queryvals, querynulls, args, |args| / 2)
  {
    var m := |args| / 2;
    var query := query0;
    ghost var types: seq<string> := [];
    var i := 0;
    while i < m
      invariant 0 <= i <= m
      invariant PairTypes(args, typeOf, i) == Ok(types)
      invariant query == query0 + UpdateBody(args, types, keywords, cmdupdncols, false)
      invariant ParamsUpTo(queryvals, querynulls, args, i)
    {
      var coltype := LookupPair(args, typeOf, i);
      if coltype.Err? {
        PairTypesErrSticky(args, typeOf, i + 1, m);
        return Err(coltype.error);
      }
      SetNextParam(queryvals, querynulls, args, i);
      var q := QuoteIdentifier(args[2 * i].value, keywords);
      var chunk := UpdateChunkText(cmdupdncols, i, q, q + " = " + Param(i, coltype.value));
      UpdateStep(query0, args, types, coltype.value, keywords, cmdupdncols, i);
      query := query + chunk;
      types := types + [coltype.value];
      i := i + 1;
    }
    r := Ok(query);
  }

  /** The UPDATE branch, in one pass over the pairs. */
  method BuildUpdate(nsp: string, rel: string, cmdupdncols: int, args: seq<Option<string>>, typeOf: TypeLookup, keywords: set<string>)
    returns (r: Result<Statement, SynthError>)
    requires |args| % 2 == 0
    ensures r == UpdateStatement(nsp, rel, cmdupdncols, args, typeOf, keywords, false)
  {
    var m := |args| / 2;
    var queryvals := new Option<string>[m];
    var querynulls := new char[m + 1];
    var qn := QuoteIdentifier(nsp, keywords);
    var qr := QuoteIdentifier(rel, keywords);
    var target := qn + "." + qr;
    var query := UpdateClauses("UPDATE ONLY " + target + " SET ", cmdupdncols, args, typeOf, keywords, queryvals, querynulls);
    if query.Err? {
      return Err(query.error);
    }
    var values, nulls := FinishParams(queryvals, querynulls, args);
    r := Ok(Statement(query.value + ";", values, nulls));
  }

  /** What one iteration of the UPDATE loop writes for pair i (argument
      index 2i), whose quoted name is q and whose item is "q = $i+1::type". */
  method UpdateChunkText(cmdupdncols: int, i: nat, q: string, item: string) returns (chunk: string)
    ensures chunk == (if cmdupdncols == 0 then q + " = " + q else "") + Separator(SetCount(cmdupdncols), i) + item
  {
    var bound := Wrap32(cmdupdncols * 2);
    chunk := "";
    if cmdupdncols == 0 {
      chunk := q + " = " + q;
    }
    if 2 * i == bound {
      chunk := chunk + " WHERE ";
    }
    if 2 * i < bound {
      chunk := chunk + (if i > 0 then ", " else "") + item;
    } else {
      chunk := chunk + (if 2 * i > bound then " AND " else "") + item;
    }
  }

  /** The TRUNCATE branch: a call of the cluster's TruncateOnlyTable with
      the namespace and table name as its two text parameters. */
  method BuildTruncate(cluster: string, nsp: string, rel: string, keywords: set<string>) returns (st: Statement)
    ensures st == TruncateStatement(cluster, nsp, rel, keywords)
    ensures |st.values| == 2 && st.nulls == "  "
  {
    var c := QuoteIdentifier(cluster, keywords);
    var query := "SELECT " + c + ".TruncateOnlyTable(" + c + ".slon_quote_brute($1) || '.' || " + c + ".slon_quote_brute($2));";
    st := Statement(query, [Some(nsp), Some(rel)], "  ");
  }

  /** The switch on log_cmdtype of a data log row. */
  method Synthesize(cmdtype: char, cluster: string, nsp: string, rel: string, cmdupdncols: int,
                    args: seq<Option<string>>, typeOf: TypeLookup, keywords: set<string>)
    returns (r: Result<Statement, SynthError>)
    requires cmdtype in "IUD" ==> |args| % 2 == 0
    ensures r == SynthesizeSpec(cmdtype, cluster, nsp, rel, cmdupdncols, args, typeOf, keywords)
  {
    match cmdtype {
      case 'I' =>
        r := BuildInsert(nsp, rel, args, typeOf, keywords);
      case 'U' =>
        r := BuildUpdate(nsp, rel, cmdupdncols, args, typeOf, keywords);
      case 'D' =>
        r := BuildDelete(nsp, rel, args, typeOf, keywords);
      case 'T' =>
        var st := BuildTruncate(cluster, nsp, rel, keywords);
        r := Ok(st);
      case _ =>
        r := Err(UnhandledCmdType(cmdtype));
    }
  }
}
