/** An encoding that meets everything the archive relies on. */
module ArchiveCodec {
  import opened Options
  import opened ArchiveTypes

  /** A mark in front of every byte, and another one at the end. */
  function Coded(text: Bytes): Bytes { if text == [] then [0] else [1, text[0]] + Coded(text[1..]) }

  function Decoded(code: Bytes): Option<Bytes> {
    if code == [] then Some([])
    else if code[0] == 0 then Decoded(code[1..])
    else if code[0] == 1 && |code| > 1 then
      var rest := Decoded(code[2..]);
      if rest.None? then None else Some([code[1]] + rest.value)
    else None
  }

  lemma DecodedEnd(rest: Bytes)
    ensures Decoded([0] + rest) == Decoded(rest)
  {
    assert ([0] + rest)[1..] == rest;
  }

  lemma DecodedByte(x: Byte, rest: Bytes)
    ensures Decoded([1, x] + rest) == if Decoded(rest).None? then None else Some([x] + Decoded(rest).value)
  {
    assert ([1, x] + rest)[2..] == rest;
  }

  lemma DecodedShape(a: Bytes)
    requires Decoded(a).Some? && a != []
    ensures a == [0] + a[1..] || (|a| > 1 && a == [1, a[1]] + a[2..])
  {}

  predicate Joins(a: Bytes, b: Bytes) {
    Decoded(a).Some? && Decoded(b).Some? ==> Decoded(a + b) == Some(Decoded(a).value + Decoded(b).value)
  }

  lemma JoinsEnd(a: Bytes, b: Bytes)
    requires Joins(a, b)
    ensures Joins([0] + a, b)
  {
    hide Decoded;
    DecodedEnd(a);
    DecodedEnd(a + b);
    assert [0] + a + b == [0] + (a + b);
  }

  lemma JoinsByte(x: Byte, a: Bytes, b: Bytes)
    requires Joins(a, b)
    ensures Joins([1, x] + a, b)
  {
    hide Decoded;
    DecodedByte(x, a);
    DecodedByte(x, a + b);
    assert [1, x] + a + b == [1, x] + (a + b);
    if Decoded(a).Some? && Decoded(b).Some? { assert [x] + (Decoded(a).value + Decoded(b).value) == [x] + Decoded(a).value + Decoded(b).value; }
  }

  /** Encodings one after the other decode one after the other. */
  lemma {:induction false} DecodedConcat(a: Bytes, b: Bytes)
    requires Decoded(a).Some?
    ensures Joins(a, b)
    decreases |a|
  {
    hide Joins;
    if a == [] {
      JoinsNothing(b);
    } else {
      DecodedShape(a);
      var n := if a == [0] + a[1..] then 1 else 2;
      assert Decoded(a[n..]).Some? by { if n == 1 { DecodedEnd(a[1..]); } else { DecodedByte(a[1], a[2..]); } }
      DecodedConcat(a[n..], b);
      if n == 1 { JoinsEnd(a[1..], b); } else { JoinsByte(a[1], a[2..], b); }
    }
  }

  lemma JoinsNothing(b: Bytes)
    ensures Joins([], b)
  {
    assert [] + b == b;
    if Decoded(b).Some? { assert [] + Decoded(b).value == Decoded(b).value; }
  }

  lemma {:induction false} CodedBack(text: Bytes)
    ensures Coded(text) != [] && Decoded(Coded(text)) == Some(text)
  {
    if text == [] {
      assert [0][1..] == [];
    } else {
      CodedBack(text[1..]);
      assert Coded(text)[2..] == Coded(text[1..]);
      assert text == [text[0]] + text[1..];
    }
  }

  /** What is assumed of gzip can be met. */
  lemma SoundCodec()
    ensures Sound(Codec((level, text) => Coded(text), Decoded))
  {
    var z := Codec((level, text) => Coded(text), Decoded);
    forall level: nat, text: Bytes ensures |z.zip(level, text)| > 0 && z.unzip(z.zip(level, text)) == Some(text) { CodedBack(text); }
    forall a: Bytes, b: Bytes | z.unzip(a).Some? && z.unzip(b).Some? ensures z.unzip(a + b) == Some(z.unzip(a).value + z.unzip(b).value) {
      DecodedConcat(a, b);
    }
  }
}
