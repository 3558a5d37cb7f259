/**
  RFC 4648 base64: the encoder of section 4 and a decoder that accepts exactly the strings a
  strict decoder accepts (whole quads over the alphabet, padding only in the last quad). Like
  Python's strict decoder it ignores the bits that padding leaves over; section 3.5 calls an
  encoding canonical when those bits are zero.
*/
module Base64 {
  import opened Outcomes

  type Byte = b: int | 0 <= b < 256
  type Sextet = v: int | 0 <= v < 64

  function Symbol(v: Sextet): char
  {
    if v < 26 then ('A' as int + v) as char
    else if v < 52 then ('a' as int + v - 26) as char
    else if v < 62 then ('0' as int + v - 52) as char
    else if v == 62 then '+'
    else '/'
  }

  function Value(c: char): (r: Option<Sextet>)
    ensures r.Some? ==> Symbol(r.value) == c
    ensures c == '=' ==> r == None
  {
    if 'A' <= c <= 'Z' then Some(c as int - 'A' as int)
    else if 'a' <= c <= 'z' then Some(c as int - 'a' as int + 26)
    else if '0' <= c <= '9' then Some(c as int - '0' as int + 52)
    else if c == '+' then Some(62)
    else if c == '/' then Some(63)
    else None
  }

  lemma SymbolHasItsValue(v: Sextet)
    ensures Value(Symbol(v)) == Some(v) && Symbol(v) != '='
  {
  }

  /** Table 1 of RFC 4648: three runs of consecutive characters, then two more. */
  lemma SymbolsAreTheAlphabet(v: Sextet)
    ensures Symbol(0) == 'A' && Symbol(26) == 'a' && Symbol(52) == '0' && Symbol(62) == '+' && Symbol(63) == '/'
    ensures v > 0 && v !in {26, 52, 62, 63} ==> Symbol(v) as int == Symbol(v - 1) as int + 1
  {
  }

  function High(b0: Byte): Sextet { b0 / 4 }
  function Mid(b0: Byte, b1: Byte): Sextet { b0 % 4 * 16 + b1 / 16 }
  function Low(b1: Byte, b2: Byte): Sextet { b1 % 16 * 4 + b2 / 64 }
  function Last(b2: Byte): Sextet { b2 % 64 }

  function Byte0(v0: Sextet, v1: Sextet): Byte { v0 * 4 + v1 / 16 }
  function Byte1(v1: Sextet, v2: Sextet): Byte { v1 % 16 * 16 + v2 / 4 }
  function Byte2(v2: Sextet, v3: Sextet): Byte { v2 % 4 * 64 + v3 }

  lemma BytesOfSextets(b0: Byte, b1: Byte, b2: Byte)
    ensures Byte0(High(b0), Mid(b0, b1)) == b0
    ensures Byte1(Mid(b0, b1), Low(b1, b2)) == b1
    ensures Byte2(Low(b1, b2), Last(b2)) == b2
  {
  }

  lemma SextetsOfBytes(v0: Sextet, v1: Sextet, v2: Sextet, v3: Sextet)
    ensures High(Byte0(v0, v1)) == v0
    ensures Mid(Byte0(v0, v1), Byte1(v1, v2)) == v1
    ensures Low(Byte1(v1, v2), Byte2(v2, v3)) == v2
    ensures Last(Byte2(v2, v3)) == v3
    ensures Mid(Byte0(v0, v1), 0) == v1 / 16 * 16
    ensures Low(Byte1(v1, v2), 0) == v2 / 4 * 4
  {
  }

  function Encode(bs: seq<Byte>): (s: string)
  {
    if bs == [] then ""
    else if |bs| == 1 then
      [Symbol(High(bs[0])), Symbol(Mid(bs[0], 0)), '=', '=']
    else if |bs| == 2 then
      [Symbol(High(bs[0])), Symbol(Mid(bs[0], bs[1])), Symbol(Low(bs[1], 0)), '=']
    else
      [Symbol(High(bs[0])), Symbol(Mid(bs[0], bs[1])), Symbol(Low(bs[1], bs[2])), Symbol(Last(bs[2]))]
      + Encode(bs[3..])
  }

  function Decode(s: string): Option<seq<Byte>>
  {
    if s == "" then Some([])
    else if |s| < 4 then None
    else
      var v0, v1, v2, v3 := Value(s[0]), Value(s[1]), Value(s[2]), Value(s[3]);
      if v0.None? || v1.None? then None
      else if |s| == 4 && s[3] == '=' then
        if s[2] == '=' then Some([Byte0(v0.value, v1.value)])
        else if v2.None? then None
        else Some([Byte0(v0.value, v1.value), Byte1(v1.value, v2.value)])
      else if v2.None? || v3.None? then None
      else
        var rest := Decode(s[4..]);
        if rest.None? then None
        else Some([Byte0(v0.value, v1.value), Byte1(v1.value, v2.value), Byte2(v2.value, v3.value)] + rest.value)
  }

  /** Section 3.5: the bits the padding leaves over are all zero. */
  predicate UnusedBitsAreZero(s: string)
    requires |s| >= 4
  {
    var n := |s|;
    if s[n - 1] != '=' then true
    else if s[n - 2] == '=' then Value(s[n - 3]).Some? && Value(s[n - 3]).value % 16 == 0
    else Value(s[n - 2]).Some? && Value(s[n - 2]).value % 4 == 0
  }

  lemma DecodeFullQuad(v0: Sextet, v1: Sextet, v2: Sextet, v3: Sextet, tail: string)
    requires Decode(tail).Some?
    ensures Decode([Symbol(v0), Symbol(v1), Symbol(v2), Symbol(v3)] + tail)
            == Some([Byte0(v0, v1), Byte1(v1, v2), Byte2(v2, v3)] + Decode(tail).value)
  {
    var s := [Symbol(v0), Symbol(v1), Symbol(v2), Symbol(v3)] + tail;
    SymbolHasItsValue(v0);
    SymbolHasItsValue(v1);
    SymbolHasItsValue(v2);
    SymbolHasItsValue(v3);
    assert s[4..] == tail;
  }

  lemma DecodePaddedQuad(v0: Sextet, v1: Sextet, v2: Sextet)
    ensures Decode([Symbol(v0), Symbol(v1), '=', '=']) == Some([Byte0(v0, v1)])
    ensures Decode([Symbol(v0), Symbol(v1), Symbol(v2), '=']) == Some([Byte0(v0, v1), Byte1(v1, v2)])
  {
    SymbolHasItsValue(v0);
    SymbolHasItsValue(v1);
    SymbolHasItsValue(v2);
  }

  /** Three of the test vectors of section 10: `f`, `fo` and `foobar`. */
  lemma TestVectors()
    ensures Encode([102]) == "Zg==" && Encode([102, 111]) == "Zm8="
    ensures Encode([102, 111, 111, 98, 97, 114]) == "Zm9vYmFy"
  {
    var tail: seq<Byte> := [98, 97, 114];
    assert [102, 111, 111, 98, 97, 114][3..] == tail;
    assert Encode(tail) == "YmFy" + Encode(tail[3..]);
  }

  /** Section 4 round trip: decoding an encoding gives the bytes back. */
  lemma {:induction false} DecodeUndoesEncode(bs: seq<Byte>)
    ensures Decode(Encode(bs)) == Some(bs)
  {
    hide High, Mid, Low, Last, Byte0, Byte1, Byte2, Symbol, Value;
    if bs != [] {
      var b0, b1, b2 := bs[0], if |bs| > 1 then bs[1] else 0, if |bs| > 2 then bs[2] else 0;
      BytesOfSextets(b0, b1, b2);
      var h, m, l, t := High(b0), Mid(b0, b1), Low(b1, b2), Last(b2);
      if |bs| >= 3 {
        DecodeUndoesEncode(bs[3..]);
        DecodeFullQuad(h, m, l, t, Encode(bs[3..]));
        assert Encode(bs) == [Symbol(h), Symbol(m), Symbol(l), Symbol(t)] + Encode(bs[3..]);
        assert bs == [b0, b1, b2] + bs[3..];
      } else if |bs| == 2 {
        DecodePaddedQuad(h, m, l);
        assert Encode(bs) == [Symbol(h), Symbol(m), Symbol(l), '='];
        assert bs == [b0, b1];
      } else {
        DecodePaddedQuad(h, m, l);
        assert Encode(bs) == [Symbol(h), Symbol(m), '=', '='];
        assert bs == [b0];
      }
    }
  }

  /** Two symbols are equal only when their values are. */
  lemma SymbolsDiffer(v: Sextet, w: Sextet)
    requires v != w
    ensures Symbol(v) != Symbol(w)
  {
    SymbolHasItsValue(v);
    SymbolHasItsValue(w);
  }

  lemma TwoSymbolsLeft(s: string)
    requires |s| == 4 && s[2] == s[3] == '=' && Decode(s).Some?
    ensures Encode(Decode(s).value) == s <==> UnusedBitsAreZero(s)
  {
    hide High, Mid, Low, Last, Byte0, Byte1, Byte2, Symbol, Value;
    var v0, v1 := Value(s[0]).value, Value(s[1]).value;
    SextetsOfBytes(v0, v1, 0, 0);
    assert Decode(s).value == [Byte0(v0, v1)];
    var again := Encode([Byte0(v0, v1)]);
    assert again == [Symbol(v0), Symbol(v1 / 16 * 16), '=', '='];
    assert UnusedBitsAreZero(s) <==> v1 % 16 == 0;
    if v1 % 16 == 0 {
      assert v1 / 16 * 16 == v1;
      assert again == s;
    } else {
      SymbolsDiffer(v1 / 16 * 16, v1);
      assert again[1] != s[1];
    }
  }

  lemma ThreeSymbolsLeft(s: string)
    requires |s| == 4 && s[2] != '=' && s[3] == '=' && Decode(s).Some?
    ensures Encode(Decode(s).value) == s <==> UnusedBitsAreZero(s)
  {
    hide High, Mid, Low, Last, Byte0, Byte1, Byte2, Symbol, Value;
    var v0, v1, v2 := Value(s[0]).value, Value(s[1]).value, Value(s[2]).value;
    SextetsOfBytes(v0, v1, v2, 0);
    assert Decode(s).value == [Byte0(v0, v1), Byte1(v1, v2)];
    var again := Encode([Byte0(v0, v1), Byte1(v1, v2)]);
    assert again == [Symbol(v0), Symbol(v1), Symbol(v2 / 4 * 4), '='];
    assert UnusedBitsAreZero(s) <==> v2 % 4 == 0;
    if v2 % 4 == 0 {
      assert v2 / 4 * 4 == v2;
      assert again == s;
    } else {
      SymbolsDiffer(v2 / 4 * 4, v2);
      assert again[2] != s[2];
    }
  }

  lemma WholeQuadReencodes(s: string)
    requires Decode(s).Some? && |s| >= 4 && !(|s| == 4 && s[3] == '=')
    ensures Decode(s[4..]).Some?
    ensures Encode(Decode(s).value) == s[..4] + Encode(Decode(s[4..]).value)
  {
    hide High, Mid, Low, Last, Byte0, Byte1, Byte2, Symbol, Value;
    var v0, v1, v2, v3 := Value(s[0]).value, Value(s[1]).value, Value(s[2]).value, Value(s[3]).value;
    var rest := Decode(s[4..]).value;
    SextetsOfBytes(v0, v1, v2, v3);
    var bs := Decode(s).value;
    assert bs == [Byte0(v0, v1), Byte1(v1, v2), Byte2(v2, v3)] + rest;
    assert bs[3..] == rest;
    assert s[..4] == [Symbol(v0), Symbol(v1), Symbol(v2), Symbol(v3)];
  }

  /** Among the strings that decode, the encoder's images are exactly the canonical ones. */
  lemma {:induction false} CanonicalIffReencodes(s: string)
    requires s != "" && Decode(s).Some?
    ensures |s| >= 4
    ensures Encode(Decode(s).value) == s <==> UnusedBitsAreZero(s)
  {
    if |s| == 4 && s[3] == '=' {
      if s[2] == '=' { TwoSymbolsLeft(s); } else { ThreeSymbolsLeft(s); }
    } else {
      hide Symbol, Encode;
      WholeQuadReencodes(s);
      var again := Encode(Decode(s).value);
      assert s == s[..4] + s[4..];
      assert again == s <==> again[4..] == s[4..];
      if s[4..] == "" {
        assert Encode([]) == "" by { EncodeNothing(); }
      } else {
        CanonicalIffReencodes(s[4..]);
      }
    }
  }

  lemma EncodeNothing()
    ensures Encode([]) == ""
  {
  }
}
