/** The fingerprint of what was consumed: its first and last bytes. */
module CollectorPrint {
  import opened ArchiveTypes
  import opened CollectorRead

  /** Hashes are injective, so a fingerprint is the fingerprinted bytes. */
  datatype Print = Print(prefix: Bytes, tail: Bytes)

  function Smaller(a: nat, b: nat): nat { if a < b then a else b }

  function First(bytes: Bytes): Bytes { bytes[..Smaller(|bytes|, PRINT)] }

  function Last(bytes: Bytes): Bytes { bytes[|bytes| - Smaller(|bytes|, PRINT)..] }

  function Ends(bytes: Bytes): Print { Print(First(bytes), Last(bytes)) }

  /** bytesAt: at most `n` bytes from `from`; fewer at the end of the file. */
  function At(f: Bytes, from: nat, n: nat): Bytes { f[Smaller(from, |f|)..Smaller(from + n, |f|)] }

  /** fingerprint: what a file holds at the ends of its first `offset` bytes. */
  function PrintOf(f: Bytes, offset: nat): Print {
    var n := Smaller(offset, PRINT);
    Print(At(f, 0, n), At(f, offset - n, n))
  }

  /** consume: the fingerprint rolled over more bytes. */
  function Roll(p: Print, bytes: Bytes): Print {
    var tail := p.tail + bytes;
    Print(if |p.prefix| < PRINT then p.prefix + bytes[..Smaller(|bytes|, PRINT - |p.prefix|)] else p.prefix,
          if |bytes| >= PRINT then bytes[|bytes| - PRINT..] else tail[|tail| - Smaller(|tail|, PRINT)..])
  }

  lemma PrintOfEnds(f: Bytes, offset: nat)
    requires offset <= |f|
    ensures PrintOf(f, offset) == Ends(f[..offset])
  {
    assert First(f[..offset]) == At(f, 0, Smaller(offset, PRINT));
    assert Last(f[..offset]) == At(f, offset - Smaller(offset, PRINT), Smaller(offset, PRINT));
  }

  lemma FirstConcat(a: Bytes, b: Bytes)
    ensures First(a + b) == if |a| < PRINT then a + b[..Smaller(|b|, PRINT - |a|)] else First(a)
  {}

  lemma LastConcat(a: Bytes, b: Bytes)
    ensures Last(a + b) == if |b| >= PRINT then b[|b| - PRINT..] else Last(Last(a) + b)
  {
    if |b| < PRINT { assert a == a[..|a| - |Last(a)|] + Last(a); }
  }

  /** The rolling fingerprint is the recomputed one. */
  lemma RollEnds(a: Bytes, b: Bytes)
    ensures Roll(Ends(a), b) == Ends(a + b)
  {
    FirstConcat(a, b);
    LastConcat(a, b);
    assert |a| < PRINT ==> First(a) == a;
  }

  /** A file that only grew keeps the fingerprint of what was consumed. */
  lemma PrintGrows(f: Bytes, later: Bytes, offset: nat)
    requires f <= later && offset <= |f|
    ensures PrintOf(later, offset) == PrintOf(f, offset)
  {}

  predicate Sized(p: Print, offset: nat) { |p.prefix| == |p.tail| == Smaller(offset, PRINT) }

  lemma PrintSized(f: Bytes, offset: nat)
    ensures Sized(PrintOf(f, offset), offset) <==> offset <= |f|
  {}
}
