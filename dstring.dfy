/** SlonDString (slonik.h): slonik's growable string buffer. n_alloc bytes
    are allocated, the first n_used hold the text, and the capacity doubles
    whenever an append would leave no room for a terminating NUL. The
    invariant n_used < n_alloc keeps dstring_terminate in bounds. */
module DString {

  /** SLON_DSTRING_SIZE_INIT. */
  const SizeInit: nat := 256
  /** SLON_DSTRING_SIZE_INC. */
  const SizeInc: nat := 2

  const NUL: char := 0 as char

  /** The capacity the doubling loop of dstring_nappend reaches for a
      buffer of capacity alloc that must hold need bytes and a NUL. */
  function Grown(alloc: nat, need: nat): nat
    requires alloc >= 1
    decreases need - alloc + 1
  {
    if need < alloc then alloc else Grown(alloc * SizeInc, need)
  }

  function Pow2(k: nat): nat { if k == 0 then 1 else 2 * Pow2(k - 1) }

  /** The loop only doubles, stops at the first capacity with room for need
      bytes and a NUL, and leaves a capacity that already had room alone. */
  lemma {:induction false} GrownMeaning(alloc: nat, need: nat)
    requires alloc >= 1
    ensures need < Grown(alloc, need)
    ensures exists k: nat :: Grown(alloc, need) == alloc * Pow2(k)
    ensures need < alloc ==> Grown(alloc, need) == alloc
    ensures need >= alloc ==> Grown(alloc, need) <= 2 * need
    decreases need - alloc + 1
  {
    if need < alloc {
      assert alloc == alloc * Pow2(0);
    } else {
      GrownMeaning(alloc * 2, need);
      var k: nat :| Grown(alloc * 2, need) == alloc * 2 * Pow2(k);
      assert Grown(alloc, need) == alloc * Pow2(k + 1);
    }
  }

  /** The bytes strlen counts: those before the first NUL. */
  function StrLen(s: seq<char>): (n: nat)
    ensures n <= |s| && NUL !in s[..n]
    ensures n < |s| ==> s[n] == NUL
  {
    if |s| == 0 then 0
    else if s[0] == NUL then 0
    else
      var n := 1 + StrLen(s[1..]);
      assert s[..n] == [s[0]] + s[1..][..n - 1];
      n
  }

  class Buffer {
    var nAlloc: nat
    var nUsed: nat
    /** null after dstring_free. */
    var data: array?<char>

    ghost predicate Valid()
      reads this
    {
      nAlloc >= 1 && (data != null ==> data.Length == nAlloc && nUsed < nAlloc) && (data == null ==> nUsed == 0)
    }

    /** The text: the first n_used bytes. */
    ghost function Contents(): seq<char>
      reads this, data
      requires Valid() && data != null
    {
      data[..nUsed]
    }

    /** dstring_init. */
    constructor ()
      ensures Valid() && data != null && fresh(data)
      ensures nAlloc == SizeInit && nUsed == 0
    {
      nAlloc := SizeInit;
      nUsed := 0;
      data := new char[SizeInit];
    }

    /** dstring_init on a buffer that was freed (or is being reused). */
    method Init()
      modifies this
      ensures Valid() && data != null && fresh(data)
      ensures nAlloc == SizeInit && nUsed == 0
    {
      nAlloc := SizeInit;
      nUsed := 0;
      data := new char[SizeInit];
    }

    /** dstring_reset: empty text, NUL-terminated, capacity kept. */
    method Reset()
      requires Valid() && data != null
      modifies this, data
      ensures Valid() && data == old(data) && nAlloc == old(nAlloc)
      ensures nUsed == 0 && data[0] == NUL && Contents() == []
    {
      nUsed := 0;
      data[0] := NUL;
    }

    /** dstring_free: the memory is released and n_used cleared; n_alloc is
        left as it was. */
    method Free()
      requires Valid()
      modifies this
      ensures Valid() && data == null && nUsed == 0 && nAlloc == old(nAlloc)
    {
      data := null;
      nUsed := 0;
    }

    /** realloc to newAlloc bytes: a new block holding the old bytes. */
    method Realloc(newAlloc: nat)
      requires Valid() && data != null && newAlloc >= nAlloc
      modifies this
      ensures Valid() && data != null && fresh(data)
      ensures nAlloc == newAlloc && nUsed == old(nUsed)
      ensures data[..old(nAlloc)] == old(data[..])
    {
      var block := new char[newAlloc];
      var src, n := data, nAlloc;
      var i := 0;
      while i < n
        invariant 0 <= i <= n
        invariant block[..i] == src[..i]
        modifies block
      {
        block[i] := src[i];
        i := i + 1;
      }
      data := block;
      nAlloc := newAlloc;
    }

    /** memcpy of s to position n_used onwards. */
    method CopyIn(s: seq<char>)
      requires Valid() && data != null && nUsed + |s| < nAlloc
      modifies data
      ensures data[..nUsed] == old(data[..nUsed]) && data[nUsed..nUsed + |s|] == s
    {
      var i := 0;
      while i < |s|
        invariant 0 <= i <= |s|
        invariant data[..nUsed] == old(data[..nUsed]) && data[nUsed..nUsed + i] == s[..i]
      {
        data[nUsed + i] := s[i];
        i := i + 1;
      }
    }

    /** dstring_nappend with n = |s|: the capacity doubles until n_used + n
        fits with room for a NUL, then s is copied after the text. */
    method NAppend(s: seq<char>)
      requires Valid() && data != null
      modifies this, data
      ensures Valid() && data != null
      ensures Contents() == old(Contents()) + s
      ensures nUsed == old(nUsed) + |s|
      ensures nAlloc == Grown(old(nAlloc), old(nUsed) + |s|)
    {
      if nUsed + |s| >= nAlloc {
        var alloc := nAlloc;
        while nUsed + |s| >= alloc
          invariant alloc >= 1
          invariant Grown(nAlloc, nUsed + |s|) == Grown(alloc, nUsed + |s|)
          invariant alloc >= nAlloc
          decreases nUsed + |s| - alloc
        {
          alloc := alloc * SizeInc;
        }
        Realloc(alloc);
      }
      CopyIn(s);
      nUsed := nUsed + |s|;
      assert data[..nUsed] == data[..old(nUsed)] + data[old(nUsed)..nUsed];
    }

    /** dstring_append: nappend of the bytes before s's first NUL. */
    method Append(s: seq<char>)
      requires Valid() && data != null
      modifies this, data
      ensures Valid() && data != null
      ensures Contents() == old(Contents()) + s[..StrLen(s)]
      ensures nUsed == old(nUsed) + StrLen(s)
    {
      var n := StrLen(s);
      NAppend(s[..n]);
    }

    /** dstring_addchar: one byte, after at most one doubling. */
    method AddChar(c: char)
      requires Valid() && data != null
      modifies this, data
      ensures Valid() && data != null
      ensures Contents() == old(Contents()) + [c]
      ensures nAlloc == if old(nUsed) + 1 >= old(nAlloc) then old(nAlloc) * SizeInc else old(nAlloc)
    {
      if nUsed + 1 >= nAlloc {
        Realloc(nAlloc * SizeInc);
      }
      data[nUsed] := c;
      nUsed := nUsed + 1;
    }

    /** dstring_terminate: a NUL right after the text, in bounds. */
    method Terminate()
      requires Valid() && data != null
      modifies data
      ensures Contents() == old(Contents()) && data[nUsed] == NUL
    {
      data[nUsed] := NUL;
    }
  }
}
