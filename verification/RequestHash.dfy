/**
 The request fingerprint of internal/jobs/service.go: each field is written as
 its decimal byte length, a colon and the bytes, and the whole is hashed.
 */
module RequestHash {
  import opened GoTypes
  import opened Domain

  const COLON: byte := 58
  const ZERO: byte := 48

  // The hash is taken to be collision-free: a digest is its preimage.
  datatype Digest = Sha256(preimage: GoString)

  predicate IsDigit(b: byte) { ZERO <= b < COLON }

  // fmt's %d on a non-negative int.
  function Decimal(n: nat): (text: GoString)
    ensures text != [] && forall i :: 0 <= i < |text| ==> IsDigit(text[i])
  {
    if n < 10 then [48 + n as byte] else Decimal(n / 10) + [48 + (n % 10) as byte]
  }

  // strconv-style reading of a digit string.
  function Number(text: GoString): nat
    requires forall i :: 0 <= i < |text| ==> IsDigit(text[i])
  {
    if text == [] then 0
    else
      var last := text[|text| - 1];
      assert IsDigit(last);
      Number(text[..|text| - 1]) * 10 + (last - ZERO) as nat
  }

  lemma {:induction false} NumberOfDecimal(n: nat)
    ensures Number(Decimal(n)) == n
  {
    var text := Decimal(n);
    if n >= 10 {
      assert text[..|text| - 1] == Decimal(n / 10);
      NumberOfDecimal(n / 10);
    } else {
      assert text[..0] == [];
    }
  }

  function EncodeField(f: GoString): GoString { Decimal(|f|) + [COLON] + f }

  function EncodeFields(fields: seq<GoString>): GoString {
    if fields == [] then [] else EncodeField(fields[0]) + EncodeFields(fields[1..])
  }

  // The reader's side: where the leading digits stop.
  function DigitsEnd(s: GoString, from: nat): (k: nat)
    requires from <= |s|
    ensures from <= k <= |s|
    ensures forall i :: from <= i < k ==> IsDigit(s[i])
    ensures k < |s| ==> !IsDigit(s[k])
    decreases |s| - from
  {
    if from < |s| && IsDigit(s[from]) then DigitsEnd(s, from + 1) else from
  }

  // Splits off the first field, if the text starts with a well-formed one.
  function DecodeField(s: GoString): (r: Option<(GoString, GoString)>)
    ensures r.Some? ==> |r.value.1| < |s|
  {
    var k := DigitsEnd(s, 0);
    if k == |s| || s[k] != COLON then None
    else
      var n := Number(s[..k]);
      if k + 1 + n > |s| then None else Some((s[k + 1..k + 1 + n], s[k + 1 + n..]))
  }

  function DecodeFields(s: GoString): Option<seq<GoString>>
    decreases |s|
  {
    if s == [] then Some([])
    else match DecodeField(s)
      case None => None
      case Some((f, rest)) =>
        match DecodeFields(rest)
        case None => None
        case Some(fs) => Some([f] + fs)
  }

  lemma DecodeEncodedField(f: GoString, rest: GoString)
    ensures DecodeField(EncodeField(f) + rest) == Some((f, rest))
  {
    var d := Decimal(|f|);
    var s := EncodeField(f) + rest;
    assert s == d + [COLON] + f + rest;
    var k := DigitsEnd(s, 0);
    assert forall i :: 0 <= i < |d| ==> s[i] == d[i];
    assert s[|d|] == COLON;
    assert k == |d|;
    assert s[..k] == d;
    NumberOfDecimal(|f|);
    assert s[k + 1..k + 1 + |f|] == f;
    assert s[k + 1 + |f|..] == rest;
  }

  // Round trip for any number of fields of any bytes.
  lemma {:induction false} DecodeEncodedFields(fields: seq<GoString>)
    ensures DecodeFields(EncodeFields(fields)) == Some(fields)
  {
    if fields == [] {
    } else {
      DecodeEncodedField(fields[0], EncodeFields(fields[1..]));
      DecodeEncodedFields(fields[1..]);
      assert EncodeFields(fields) != [];
      assert [fields[0]] + fields[1..] == fields;
    }
  }

  lemma EncodeFieldsInjective(a: seq<GoString>, b: seq<GoString>)
    requires EncodeFields(a) == EncodeFields(b)
    ensures a == b
  {
    DecodeEncodedFields(a);
    DecodeEncodedFields(b);
  }

  function Fields(spec: JobSpec): seq<GoString> { [spec.objectKey, spec.pipeline, spec.version] }

  function HashOf(spec: JobSpec): Digest { Sha256(EncodeFields(Fields(spec))) }

  // Two requests share a fingerprint only when all three fields agree.
  lemma HashInjective(a: JobSpec, b: JobSpec)
    requires HashOf(a) == HashOf(b)
    ensures a == b
  {
    EncodeFieldsInjective(Fields(a), Fields(b));
    assert Fields(a)[0] == Fields(b)[0] && Fields(a)[1] == Fields(b)[1] && Fields(a)[2] == Fields(b)[2];
  }

  lemma {:induction false} EncodeFieldsSnoc(fields: seq<GoString>, f: GoString)
    ensures EncodeFields(fields + [f]) == EncodeFields(fields) + EncodeField(f)
  {
    if fields == [] {
      assert fields + [f] == [f];
      assert [f][1..] == [];
    } else {
      assert (fields + [f])[1..] == fields[1..] + [f];
      EncodeFieldsSnoc(fields[1..], f);
    }
  }

  // requestHash: the hasher is fed field by field.
  method RequestHash(objectKey: GoString, pipeline: GoString, version: GoString) returns (digest: Digest)
    ensures digest == HashOf(JobSpec(objectKey, pipeline, version))
    ensures DecodeFields(digest.preimage) == Some([objectKey, pipeline, version])
  {
    var fields := [objectKey, pipeline, version];
    var written: GoString := [];
    for i := 0 to |fields|
      invariant written == EncodeFields(fields[..i])
    {
      EncodeFieldsSnoc(fields[..i], fields[i]);
      assert fields[..i + 1] == fields[..i] + [fields[i]];
      written := written + Decimal(|fields[i]|) + [COLON] + fields[i];
      assert written == EncodeFields(fields[..i]) + EncodeField(fields[i]);
    }
    assert fields[..|fields|] == fields;
    DecodeEncodedFields(fields);
    digest := Sha256(written);
  }

  // What the hasher is fed for the field "ab", and the length of a field of ten bytes.
  lemma FormatIsSpelled()
    ensures EncodeField([97, 98]) == [50, 58, 97, 98]
    ensures Decimal(10) == [49, 48]
  {
    assert Decimal(2) == [50];
    assert Decimal(1) == [49];
  }
}
