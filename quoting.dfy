/** SQL identifier quoting (slon_quote_identifier): an identifier is left as
    it is when the parser would read it back unchanged, and otherwise written
    as a delimited identifier with every embedded double quote doubled
    (ISO/IEC 9075-2, Subclause 5.2, <delimited identifier>). */
module Quoting {
  import opened Common

  predicate IsLowerOrUnderscore(c: char) { ('a' <= c <= 'z') || c == '_' }

  predicate IsIdentChar(c: char) { ('a' <= c <= 'z') || ('0' <= c <= '9') || c == '_' }

  predicate AllIdentChars(s: string) { forall i :: 0 <= i < |s| ==> IsIdentChar(s[i]) }

  /** The identifier needs no quotes: it starts with a lower-case letter or
      an underscore, holds only lower-case letters, digits and underscores,
      and is not a keyword. An empty identifier is never plain (its first
      byte is the terminator). */
  predicate IsPlainIdent(ident: string, keywords: set<string>)
  {
    |ident| > 0 && IsLowerOrUnderscore(ident[0]) && AllIdentChars(ident) && ident !in keywords
  }

  /** Number of double-quote characters in s. */
  function CountQuotes(s: string): nat
  {
    if |s| == 0 then 0 else (if s[0] == '"' then 1 else 0) + CountQuotes(s[1..])
  }

  lemma {:induction false} CountQuotesAppend(a: string, b: string)
    ensures CountQuotes(a + b) == CountQuotes(a) + CountQuotes(b)
  {
    if |a| == 0 {
      assert a + b == b;
    } else {
      assert (a + b)[0] == a[0] && (a + b)[1..] == a[1..] + b;
      CountQuotesAppend(a[1..], b);
    }
  }

  /** One character as it appears inside a delimited identifier. */
  function Doubled(c: char): string { if c == '"' then "\"\"" else [c] }

  /** s with every double quote doubled. */
  function DoubleQuotes(s: string): (r: string)
    ensures |r| == |s| + CountQuotes(s)
  {
    if |s| == 0 then ""
    else
      assert s == [s[0]] + s[1..];
      Doubled(s[0]) + DoubleQuotes(s[1..])
  }

  /** The delimited form: s between double quotes, embedded quotes doubled. */
  function Delimited(s: string): (r: string)
    ensures |r| == |s| + CountQuotes(s) + 2
    ensures r[0] == '"' && r[|r| - 1] == '"'
  {
    "\"" + DoubleQuotes(s) + "\""
  }

  /** slon_quote_identifier, as a value. */
  function QuoteIdent(ident: string, keywords: set<string>): (r: string)
    ensures r == ident <==> IsPlainIdent(ident, keywords)
    ensures !IsPlainIdent(ident, keywords) ==> |r| == |ident| + CountQuotes(ident) + 2
  {
    if IsPlainIdent(ident, keywords) then ident else Delimited(ident)
  }

  /** Reads back the body of a delimited identifier: "" stands for one
      double quote, a lone double quote is malformed. */
  function Undouble(s: string): Option<string>
  {
    if |s| == 0 then Some("")
    else if s[0] == '"' then
      if |s| >= 2 && s[1] == '"' then
        match Undouble(s[2..])
        case Some(rest) => Some("\"" + rest)
        case None => None
      else None
    else
      match Undouble(s[1..])
      case Some(rest) => Some([s[0]] + rest)
      case None => None
  }

  /** What the SQL parser makes of an identifier token: a delimited one is
      unquoted, any other is taken as it is. */
  function Dequote(t: string): Option<string>
  {
    if |t| >= 2 && t[0] == '"' && t[|t| - 1] == '"' then Undouble(t[1..|t| - 1])
    else if |t| > 0 && t[0] == '"' then None
    else Some(t)
  }

  lemma {:induction false} UndoubleDoubleQuotes(s: string)
    ensures Undouble(DoubleQuotes(s)) == Some(s)
  {
    if |s| > 0 {
      UndoubleDoubleQuotes(s[1..]);
      var d := DoubleQuotes(s);
      if s[0] == '"' {
        assert d[2..] == DoubleQuotes(s[1..]);
      } else {
        assert d[1..] == DoubleQuotes(s[1..]);
      }
      assert s == [s[0]] + s[1..];
    }
  }

  /** Quoting round-trips through the parser's reading of identifiers. */
  lemma QuoteIdentRoundTrip(ident: string, keywords: set<string>)
    ensures Dequote(QuoteIdent(ident, keywords)) == Some(ident)
  {
    var r := QuoteIdent(ident, keywords);
    if !IsPlainIdent(ident, keywords) {
      assert r[1..|r| - 1] == DoubleQuotes(ident);
      UndoubleDoubleQuotes(ident);
    }
  }

  /** Distinct identifiers never quote to the same text, so the SQL text
      built from them identifies the table and columns uniquely. */
  lemma QuoteIdentInjective(a: string, b: string, keywords: set<string>)
    requires QuoteIdent(a, keywords) == QuoteIdent(b, keywords)
    ensures a == b
  {
    QuoteIdentRoundTrip(a, keywords);
    QuoteIdentRoundTrip(b, keywords);
  }

  /** A delimited identifier reads back as the text it delimits. */
  lemma DelimitedRoundTrip(s: string)
    ensures Dequote(Delimited(s)) == Some(s)
  {
    var r := Delimited(s);
    assert r[1..|r| - 1] == DoubleQuotes(s);
    UndoubleDoubleQuotes(s);
  }

  lemma {:induction false} DoubleQuotesSnoc(s: string, c: char)
    ensures DoubleQuotes(s + [c]) == DoubleQuotes(s) + Doubled(c)
  {
    if |s| == 0 {
      assert s + [c] == [c];
    } else {
      var t := s + [c];
      assert t[0] == s[0] && t[1..] == s[1..] + [c];
      DoubleQuotesSnoc(s[1..], c);
      calc {
        DoubleQuotes(t);
        Doubled(t[0]) + DoubleQuotes(t[1..]);
        Doubled(s[0]) + (DoubleQuotes(s[1..]) + Doubled(c));
        (Doubled(s[0]) + DoubleQuotes(s[1..])) + Doubled(c);
        DoubleQuotes(s) + Doubled(c);
      }
    }
  }

  /** What the scans learn from character i. */
  lemma DelimitedStep(ident: string, i: nat)
    requires i < |ident|
    ensures CountQuotes(ident[..i + 1]) == CountQuotes(ident[..i]) + (if ident[i] == '"' then 1 else 0)
    ensures CountQuotes(ident[i..]) == (if ident[i] == '"' then 1 else 0) + CountQuotes(ident[i + 1..])
    ensures DoubleQuotes(ident[..i + 1]) == DoubleQuotes(ident[..i]) + Doubled(ident[i])
  {
    var ch := ident[i];
    assert ident[..i + 1] == ident[..i] + [ch];
    assert ident[i..] == [ch] + ident[i + 1..];
    CountQuotesAppend(ident[..i], [ch]);
    DoubleQuotesSnoc(ident[..i], ch);
  }

  /** The quoting loop of slon_quote_identifier: one scan decides whether the
      identifier is safe and counts its quotes, the keyword list is then
      consulted, and a second scan writes the delimited form. */
  method QuoteIdentifier(ident: string, keywords: set<string>) returns (r: string)
    ensures r == QuoteIdent(ident, keywords)
  {
    var safe, nquotes := ScanIdent(ident);
    if safe && ident in keywords {
      safe := false;
    }
    if safe {
      return ident;
    }
    r := WriteDelimited(ident, nquotes);
  }

  /** The first scan: safe iff the first character is a lower-case letter or
      underscore and every character is a lower-case letter, digit or
      underscore; nquotes counts the double quotes. */
  method ScanIdent(ident: string) returns (safe: bool, nquotes: nat)
    ensures safe == (|ident| > 0 && IsLowerOrUnderscore(ident[0]) && AllIdentChars(ident))
    ensures nquotes == CountQuotes(ident)
  {
    safe := |ident| > 0 && IsLowerOrUnderscore(ident[0]);
    nquotes := 0;
    var i := 0;
    while i < |ident|
      invariant 0 <= i <= |ident|
      invariant safe == (|ident| > 0 && IsLowerOrUnderscore(ident[0]) && AllIdentChars(ident[..i]))
      invariant nquotes == CountQuotes(ident[..i])
    {
      var ch := ident[i];
      assert ident[..i + 1] == ident[..i] + [ch];
      CountQuotesAppend(ident[..i], [ch]);
      if !IsIdentChar(ch) {
        safe := false;
        if ch == '"' {
          nquotes := nquotes + 1;
        }
      }
      i := i + 1;
    }
    assert ident[..i] == ident;
  }

  /** Writes one character of a delimited identifier at optr, doubling a
      double quote, and returns the position after it. */
  method WriteDoubled(buf: array<char>, optr: nat, ch: char) returns (next: nat)
    requires optr + |Doubled(ch)| <= buf.Length
    modifies buf
    ensures next == optr + |Doubled(ch)|
    ensures buf[..next] == old(buf[..optr]) + Doubled(ch)
  {
    next := optr;
    if ch == '"' {
      buf[next] := '"';
      next := next + 1;
    }
    buf[next] := ch;
    next := next + 1;
  }

  /** The second scan writes the delimited form into a buffer of exactly
      strlen + nquotes + 2 characters plus the terminator, never past it. */
  method WriteDelimited(ident: string, nquotes: nat) returns (r: string)
    requires nquotes == CountQuotes(ident)
    ensures r == Delimited(ident)
  {
    var result := new char[|ident| + nquotes + 2 + 1];
    var optr := 0;
    result[optr] := '"';
    optr := optr + 1;
    var i := 0;
    assert ident[i..] == ident && ident[..i] == [];
    while i < |ident|
      invariant 0 <= i <= |ident|
      invariant optr == 1 + i + CountQuotes(ident[..i])
      invariant CountQuotes(ident[..i]) + CountQuotes(ident[i..]) == nquotes
      invariant result[..optr] == "\"" + DoubleQuotes(ident[..i])
    {
      var ch := ident[i];
      DelimitedStep(ident, i);
      Assoc("\"", DoubleQuotes(ident[..i]), Doubled(ch));
      optr := WriteDoubled(result, optr, ch);
      i := i + 1;
    }
    result[optr] := '"';
    optr := optr + 1;
    result[optr] := '\0';
    assert ident[..i] == ident;
    r := result[..optr];
  }
}
