/**
  The carrier that hides an opaque Gemini thought signature inside a tool call's own id:
  `id`, the delimiter, then the signature in canonical base64.
*/
module VertexCallId {
  import opened Outcomes
  import opened Base64

  const DELIMITER: string := "__thought__"
  const MAX_SIGNATURE_BYTES := 64 * 1024

  /** The ASCII bytes of `skip_thought_signature_validator`. */
  const BYPASS: seq<Byte> := [
    115, 107, 105, 112, 95, 116, 104, 111, 117, 103, 104, 116, 95, 115, 105, 103,
    110, 97, 116, 117, 114, 101, 95, 118, 97, 108, 105, 100, 97, 116, 111, 114]

  datatype Refusal = MissingCallId | EmptySignature | NotBase64 | NotCanonical

  predicate LegalSignature(bytes: seq<Byte>) {
    bytes != [] && bytes != BYPASS && |bytes| <= MAX_SIGNATURE_BYTES
  }

  predicate OccursAt(s: string, pattern: string, i: int) {
    0 <= i && i + |pattern| <= |s| && s[i..i + |pattern|] == pattern
  }

  /** Where `str.partition` splits: the first occurrence of a non-empty pattern. */
  function Find(s: string, pattern: string): (r: Option<nat>)
    requires pattern != ""
    ensures r.Some? ==> OccursAt(s, pattern, r.value)
    ensures forall j :: 0 <= j < |s| && (r.None? || j < r.value) ==> !OccursAt(s, pattern, j)
  {
    if |s| < |pattern| then None
    else if s[..|pattern|] == pattern then Some(0)
    else
      var rest := Find(s[1..], pattern);
      forall j | 1 <= j < |s| ensures OccursAt(s, pattern, j) <==> OccursAt(s[1..], pattern, j - 1) { OccursInTail(s, pattern, j); }
      if rest.None? then None else Some(rest.value + 1)
  }

  lemma OccursInTail(s: string, pattern: string, j: nat)
    requires 1 <= j <= |s|
    ensures OccursAt(s, pattern, j) <==> OccursAt(s[1..], pattern, j - 1)
  {
    if j + |pattern| <= |s| { assert s[1..][j - 1..j - 1 + |pattern|] == s[j..j + |pattern|]; }
  }

  function DecodeSignature(value: string): Result<seq<Byte>, Refusal> {
    if value == "" then Err(EmptySignature)
    else
      var decoded := Decode(value);
      if decoded.None? then Err(NotBase64)
      else if !LegalSignature(decoded.value) || Encode(decoded.value) != value then Err(NotCanonical)
      else Ok(decoded.value)
  }

  function EncodeCallId(callId: string, signature: Option<seq<Byte>>): string {
    if signature.None? then callId else callId + DELIMITER + Encode(signature.value)
  }

  function DecodeCallId(value: string): Result<(string, Option<seq<Byte>>), Refusal> {
    var at := Find(value, DELIMITER);
    if at.None? then Ok((value, None))
    else if at.value == 0 then Err(MissingCallId)
    else
      var signature := DecodeSignature(value[at.value + |DELIMITER|..]);
      if signature.Err? then Err(signature.error)
      else Ok((value[..at.value], Some(signature.value)))
  }

  /** The bytes of an ASCII text. */
  function Ascii(s: string): seq<int> { seq(|s|, i requires 0 <= i < |s| => s[i] as int) }

  /** A legal signature: 1 to 65536 bytes, but not the ones with which a client would skip validation. */
  lemma LegalSignatureIs(bytes: seq<Byte>)
    ensures LegalSignature(bytes) <==> 1 <= |bytes| <= 65536 && bytes != Ascii("skip_thought_signature_validator")
  {
    assert BYPASS == Ascii("skip_thought_signature_validator");
  }

  /** An id that starts with the delimiter has no call id and is refused as such. */
  lemma MissingIdIff(value: string)
    ensures DecodeCallId(value) == Err(MissingCallId) <==> "__thought__" <= value
  {
    hide DecodeSignature;
    var at := Find(value, DELIMITER);
    assert "__thought__" <= value <==> OccursAt(value, DELIMITER, 0);
    hide Find, OccursAt;
    SignatureErrors(value);
    if at.Some? { SignatureErrors(value[at.value + |DELIMITER|..]); }
  }

  lemma SignatureErrors(value: string)
    ensures DecodeSignature(value) != Err(MissingCallId)
  {
    hide Decode, Encode, LegalSignature;
  }

  /** A signature is accepted exactly when it is the canonical encoding of some legal byte string. */
  lemma SignatureAcceptance(value: string)
    ensures DecodeSignature(value).Ok? <==>
              exists bytes :: LegalSignature(bytes) && Encode(bytes) == value
    ensures DecodeSignature(value).Ok? ==>
              UnusedBitsAreZero(value) && Encode(DecodeSignature(value).value) == value
  {
    if DecodeSignature(value).Ok? {
      CanonicalIffReencodes(value);
    }
    if bytes :| LegalSignature(bytes) && Encode(bytes) == value {
      DecodeUndoesEncode(bytes);
    }
  }

  lemma AcceptedReencodes(value: string)
    ensures DecodeSignature(value).Ok? ==> Encode(DecodeSignature(value).value) == value
  {
    hide Encode, Decode;
  }

  /** Nothing is lost on the way in: every accepted id is the encoding of what it decodes to. */
  lemma EncodeUndoesDecode(value: string)
    requires DecodeCallId(value).Ok?
    ensures EncodeCallId(DecodeCallId(value).value.0, DecodeCallId(value).value.1) == value
  {
    hide Find, DecodeSignature, Encode;
    var at := Find(value, DELIMITER);
    if at.Some? {
      var n := at.value;
      AcceptedReencodes(value[n + |DELIMITER|..]);
      assert value[n..n + |DELIMITER|] == DELIMITER;
      assert value == value[..n] + value[n..n + |DELIMITER|] + value[n + |DELIMITER|..];
    }
  }

  predicate EndsWith(s: string, suffix: string) {
    |suffix| <= |s| && s[|s| - |suffix|..] == suffix
  }

  /** The ids that survive having a signature appended; checkable before encoding. */
  predicate CarriesSignature(callId: string) {
    && callId != ""
    && Find(callId, DELIMITER) == None
    && !EndsWith(callId, "__thought")
    && !EndsWith(callId, "__thought_")
  }

  /** The delimiter overlaps a shifted copy of itself only by one or by two underscores. */
  lemma DelimiterOverlaps(k: nat)
    requires 0 < k < |DELIMITER| && DELIMITER[k..] == DELIMITER[..|DELIMITER| - k]
    ensures k == 9 || k == 10
  {
    assert DELIMITER[k] == DELIMITER[k..][0];
    assert DELIMITER[|DELIMITER| - 1] == DELIMITER[k..][|DELIMITER| - 1 - k];
    assert DELIMITER[2] != DELIMITER[1];
  }

  lemma OccurrenceShows(s: string, pattern: string, i: int, before: string, after: string)
    requires s == before + pattern + after && i == |before|
    ensures OccursAt(s, pattern, i)
  {
    assert s[i..i + |pattern|] == pattern;
  }

  /** An occurrence that starts inside the id and runs past its end overlaps the appended one. */
  lemma StraddlingOccurrence(callId: string, pattern: string, tail: string, j: nat)
    requires j < |callId| < j + |pattern|
    requires OccursAt(callId + pattern + tail, pattern, j)
    ensures pattern[|callId| - j..] == pattern[..|pattern| - (|callId| - j)]
    ensures callId[j..] == pattern[..|callId| - j]
  {
    var s, k := callId + pattern + tail, |callId| - j;
    var piece := s[j..j + |pattern|];
    assert piece == pattern;
    assert piece[..k] == callId[j..];
    assert piece[k..] == pattern[..|pattern| - k];
  }

  /** An id that ends with all but a self-overlapping remainder of the pattern completes it early. */
  lemma OverlappingEnding(callId: string, pattern: string, tail: string, ending: string, rest: string)
    requires pattern == ending + rest && rest <= pattern && EndsWith(callId, ending)
    ensures OccursAt(callId + pattern + tail, pattern, |callId| - |ending|)
  {
    var before := callId[..|callId| - |ending|];
    assert callId == before + ending;
    assert pattern == rest + pattern[|rest|..];
    OccurrenceShows(callId + pattern + tail, pattern, |before|, before, pattern[|rest|..] + tail);
  }

  lemma FirstOccurrence(callId: string, pattern: string, tail: string)
    requires pattern != ""
    ensures Find(callId + pattern + tail, pattern).Some?
    ensures var j := Find(callId + pattern + tail, pattern).value;
            && j <= |callId|
            && (Find(callId, pattern).Some? ==> j < |callId|)
            && (j < |callId| && Find(callId, pattern).None? ==> |callId| < j + |pattern|)
  {
    hide Find;
    var s := callId + pattern + tail;
    OccurrenceShows(s, pattern, |callId|, callId, tail);
    var inside := Find(callId, pattern);
    if inside.Some? {
      var i := inside.value;
      assert s[i..i + |pattern|] == callId[i..i + |pattern|];
      assert OccursAt(s, pattern, i);
    }
    var j := Find(s, pattern).value;
    if j + |pattern| <= |callId| {
      assert callId[j..j + |pattern|] == s[j..j + |pattern|];
      assert OccursAt(callId, pattern, j);
    }
  }

  lemma DelimiterPieces()
    ensures DELIMITER[..9] == "__thought" && DELIMITER[..10] == "__thought_"
    ensures DELIMITER[9..] <= DELIMITER && DELIMITER[10..] <= DELIMITER
  {
    assert DELIMITER[9..] == "__" && DELIMITER[10..] == "_";
  }

  lemma EndingCompletesEarly(callId: string, tail: string, k: nat)
    requires k == 9 || k == 10
    requires EndsWith(callId, DELIMITER[..k])
    ensures k <= |callId| && OccursAt(callId + DELIMITER + tail, DELIMITER, |callId| - k)
  {
    hide OccursAt;
    DelimiterPieces();
    assert DELIMITER == DELIMITER[..k] + DELIMITER[k..];
    hide DELIMITER;
    OverlappingEnding(callId, DELIMITER, tail, DELIMITER[..k], DELIMITER[k..]);
  }

  lemma StraddlersEndSo(callId: string, tail: string, j: nat)
    requires j < |callId| < j + |DELIMITER|
    requires OccursAt(callId + DELIMITER + tail, DELIMITER, j)
    ensures EndsWith(callId, "__thought") || EndsWith(callId, "__thought_")
  {
    StraddlingOccurrence(callId, DELIMITER, tail, j);
    hide OccursAt;
    DelimiterOverlaps(|callId| - j);
    DelimiterPieces();
  }

  lemma FirstDelimiterIsTheAppendedOne(callId: string, tail: string)
    ensures Find(callId + DELIMITER + tail, DELIMITER).Some?
    ensures Find(callId + DELIMITER + tail, DELIMITER) == Some(|callId|) <==>
              Find(callId, DELIMITER) == None
              && !EndsWith(callId, "__thought") && !EndsWith(callId, "__thought_")
  {
    DelimiterPieces();
    FirstOccurrence(callId, DELIMITER, tail);
    hide Find, OccursAt, EndsWith;
    if EndsWith(callId, "__thought") { EndingCompletesEarly(callId, tail, 9); }
    if EndsWith(callId, "__thought_") { EndingCompletesEarly(callId, tail, 10); }
    var j := Find(callId + DELIMITER + tail, DELIMITER).value;
    if j < |callId| && Find(callId, DELIMITER).None? { StraddlersEndSo(callId, tail, j); }
  }

  /** With a signature the round trip holds for exactly the ids that `CarriesSignature` names. */
  lemma DecodeUndoesEncodeIff(callId: string, signature: seq<Byte>)
    requires LegalSignature(signature)
    ensures DecodeCallId(EncodeCallId(callId, Some(signature))) == Ok((callId, Some(signature)))
            <==> CarriesSignature(callId)
  {
    var value := EncodeCallId(callId, Some(signature));
    FirstDelimiterIsTheAppendedOne(callId, Encode(signature));
    DecodeUndoesEncode(signature);
    var at := Find(value, DELIMITER);
    assert OccursAt(value, DELIMITER, |callId|);
    if at == Some(|callId|) {
      assert value[..|callId|] == callId;
      assert value[|callId| + |DELIMITER|..] == Encode(signature);
    } else {
      assert |value[..at.value]| < |callId|;
    }
  }

  /** Without a signature the id is its own encoding, so only the delimiter itself spoils it. */
  lemma UnsignedRoundTripIff(callId: string)
    ensures DecodeCallId(EncodeCallId(callId, None)) == Ok((callId, None))
            <==> Find(callId, DELIMITER) == None
  {
  }

  /** The two families of ids the appended delimiter breaks, one member each. */
  lemma OverlappingIdsAreMisread(signature: seq<Byte>)
    requires LegalSignature(signature)
    ensures DecodeCallId(EncodeCallId("call__thought", Some(signature))) != Ok(("call__thought", Some(signature)))
    ensures DecodeCallId(EncodeCallId("call__thought_", Some(signature))) != Ok(("call__thought_", Some(signature)))
  {
    assert EndsWith("call__thought", "__thought") && EndsWith("call__thought_", "__thought_");
    DecodeUndoesEncodeIff("call__thought", signature);
    DecodeUndoesEncodeIff("call__thought_", signature);
  }
}
