/** Input-key validation and minting of internal/storage/keys.go. */
module UploadKeys {
  import opened GoTypes
  import opened ObjectKeys
  import RequestHash
  import UploadTokens

  // ------------------------------------------------------------------- path.Clean

  // Where the leading path element ends.
  function ElementEnd(s: GoString): (e: nat)
    ensures e <= |s| && (e < |s| ==> s[e] == SLASH) && forall i :: 0 <= i < e ==> s[i] != SLASH
  {
    if s == [] || s[0] == SLASH then 0 else 1 + ElementEnd(s[1..])
  }

  // Drops the last element written, not going below `floor`.
  function Backtrack(out: GoString, floor: nat): (r: GoString)
    ensures |r| <= |out|
  {
    if |out| <= floor || |out| == 0 then out
    else if |out| - 1 > floor && out[|out| - 1] != SLASH then Backtrack(out[..|out| - 1], floor)
    else out[..|out| - 1]
  }

  function Separator(out: GoString, rooted: bool): GoString {
    if (rooted && |out| != 1) || (!rooted && out != []) then [SLASH] else []
  }

  predicate IsDot(rest: GoString) { rest != [] && rest[0] == DOT && (|rest| == 1 || rest[1] == SLASH) }

  predicate IsDotDot(rest: GoString) {
    |rest| >= 2 && rest[0] == DOT && rest[1] == DOT && (|rest| == 2 || rest[2] == SLASH)
  }

  /** The loop of Go's path.Clean over what is left of the path: `out` is what has
      been written and `floor` how far a ".." may cut it back. */
  function CleanLoop(rest: GoString, out: GoString, floor: nat, rooted: bool): GoString
    decreases |rest|
  {
    if rest == [] then out
    else if rest[0] == SLASH then CleanLoop(rest[1..], out, floor, rooted)
    else if IsDot(rest) then CleanLoop(rest[1..], out, floor, rooted)
    else if IsDotDot(rest) then
      if |out| > floor then CleanLoop(rest[2..], Backtrack(out, floor), floor, rooted)
      else if rooted then CleanLoop(rest[2..], out, floor, rooted)
      else
        var up := out + Separator(out, false) + [DOT, DOT];
        CleanLoop(rest[2..], up, |up|, rooted)
    else
      var e := ElementEnd(rest);
      CleanLoop(rest[e..], out + Separator(out, rooted) + rest[..e], floor, rooted)
  }

  function Clean(p: GoString): GoString {
    if p == [] then [DOT]
    else
      var rooted := p[0] == SLASH;
      var out := if rooted then CleanLoop(p[1..], [SLASH], 1, true) else CleanLoop(p, [], 0, false);
      if out == [] then [DOT] else out
  }

  // --------------------------------------------------------------------- validation

  datatype KeyError = NotInNamespace | PathTraversal | NotClean | ControlCharacter

  predicate HasPair(s: GoString, b: byte) { exists i :: 0 <= i < |s| - 1 && s[i] == b && s[i + 1] == b }

  predicate HasControl(s: GoString) { exists i :: 0 <= i < |s| && s[i] < 32 }

  const INPUT_PREFIX: GoString := UPLOADS + [SLASH]

  predicate HasPrefix(s: GoString, prefix: GoString) { prefix <= s }

  // ValidateInputKey; None means the key is accepted.
  function ValidateInputKey(key: GoString): Option<KeyError> {
    if !HasPrefix(key, INPUT_PREFIX) then Some(NotInNamespace)
    else if HasPair(key, DOT) || HasPrefix(key, [SLASH]) || HasPair(key, SLASH) then Some(PathTraversal)
    else if key != Clean(key) then Some(NotClean)
    else if HasControl(key) then Some(ControlCharacter)
    else None
  }

  datatype KeyReply = Key(key: GoString) | InvalidKey

  function DecodeUploadID(token: GoString): KeyReply {
    match UploadTokens.Decode(token)
    case None => InvalidKey
    case Some(key) => if ValidateInputKey(key).None? then Key(key) else InvalidKey
  }

  function EncodeUploadID(key: GoString): GoString { UploadTokens.Encode(key) }

  // ----------------------------------------------------------------- path elements

  // The elements of a path, as strings.Split on "/" gives them.
  function Split(s: GoString): (r: seq<GoString>)
    ensures r != []
    decreases |s|
  {
    var e := ElementEnd(s);
    if e == |s| then [s] else [s[..e]] + Split(s[e + 1..])
  }

  function Join(elements: seq<GoString>): GoString {
    if elements == [] then []
    else if |elements| == 1 then elements[0]
    else elements[0] + [SLASH] + Join(elements[1..])
  }

  predicate SlashFree(s: GoString) { forall i :: 0 <= i < |s| ==> s[i] != SLASH }

  // Splitting is the inverse of joining slash-free elements, and conversely.
  lemma {:induction false} SplitJoins(s: GoString)
    ensures Join(Split(s)) == s && forall i :: 0 <= i < |Split(s)| ==> SlashFree(Split(s)[i])
    decreases |s|
  {
    var e := ElementEnd(s);
    if e < |s| {
      SplitJoins(s[e + 1..]);
      assert s == s[..e] + [SLASH] + s[e + 1..];
      assert Split(s)[1..] == Split(s[e + 1..]);
    }
  }

  lemma ElementEndIs(a: GoString, rest: GoString)
    requires SlashFree(a)
    ensures ElementEnd(a) == |a| && ElementEnd(a + [SLASH] + rest) == |a|
  {
    var s := a + [SLASH] + rest;
    assert s[|a|] == SLASH;
    assert forall i :: 0 <= i < |a| ==> s[i] == a[i];
  }

  lemma SplitHead(a: GoString, rest: GoString)
    requires SlashFree(a)
    ensures Split(a) == [a] && Split(a + [SLASH] + rest) == [a] + Split(rest)
  {
    ElementEndIs(a, rest);
    var s := a + [SLASH] + rest;
    assert s[..|a|] == a && s[|a| + 1..] == rest;
  }

  // ------------------------------------------------- when cleaning changes nothing

  predicate PlainElement(s: GoString) { s != [] && s != [DOT] }

  predicate AllPlain(elements: seq<GoString>) { forall i :: 0 <= i < |elements| ==> PlainElement(elements[i]) }

  // What the path would be if the rest were copied as it is.
  function Verbatim(out: GoString, rest: GoString): GoString { out + Separator(out, false) + rest }

  lemma NoPairInTail(s: GoString, b: byte, k: nat)
    requires !HasPair(s, b) && k <= |s|
    ensures !HasPair(s[k..], b) && !HasPair(s[..k], b)
  {
  }

  lemma PlainHead(rest: GoString)
    requires !HasPair(rest, DOT)
    ensures !IsDotDot(rest)
    ensures IsDot(rest) <==> rest != [] && Split(rest)[0] == [DOT]
    ensures (rest == [] || rest[0] == SLASH) <==> Split(rest)[0] == []
  {
    var e := ElementEnd(rest);
    assert Split(rest)[0] == rest[..e];
    if IsDot(rest) {
      assert rest[..1] == [DOT];
    }
  }

  // A plain leading element is copied, and a slash after it is skipped.
  lemma CopyHead(rest: GoString, out: GoString)
    requires !HasPair(rest, DOT) && PlainElement(Split(rest)[0])
    ensures var e := ElementEnd(rest);
            var out' := Verbatim(out, rest[..e]);
            && out' != []
            && CleanLoop(rest, out, 0, false) == if e == |rest| then out' else CleanLoop(rest[e + 1..], out', 0, false)
  {
    PlainHead(rest);
    var e := ElementEnd(rest);
    assert Split(rest)[0] == rest[..e];
    var out' := Verbatim(out, rest[..e]);
    assert CleanLoop(rest, out, 0, false) == CleanLoop(rest[e..], out', 0, false);
    if e < |rest| {
      assert rest[e..][1..] == rest[e + 1..];
    }
  }

  lemma PlainByParts(rest: GoString)
    requires ElementEnd(rest) < |rest|
    ensures AllPlain(Split(rest)) <==> PlainElement(Split(rest)[0]) && AllPlain(Split(rest[ElementEnd(rest) + 1..]))
  {
    var tail := Split(rest[ElementEnd(rest) + 1..]);
    assert Split(rest) == [rest[..ElementEnd(rest)]] + tail;
    assert forall i :: 0 <= i < |tail| ==> Split(rest)[i + 1] == tail[i];
  }

  lemma VerbatimOf(out: GoString, head: GoString, tail: GoString)
    requires head != []
    ensures Verbatim(Verbatim(out, head), tail) == Verbatim(out, head + [SLASH] + tail)
  {
    Regroup(out + Separator(out, false), head, tail);
  }

  lemma Regroup(x: GoString, head: GoString, tail: GoString)
    ensures x + (head + [SLASH] + tail) == x + head + [SLASH] + tail
  {
  }

  lemma InParts(s: GoString)
    requires ElementEnd(s) < |s|
    ensures s == s[..ElementEnd(s)] + [SLASH] + s[ElementEnd(s) + 1..]
  {
    CutAt(s, ElementEnd(s));
  }

  lemma CutAt(s: GoString, e: nat)
    requires e < |s|
    ensures s == s[..e] + [s[e]] + s[e + 1..]
  {
  }

  lemma {:induction false} PlainIsCopied(rest: GoString, out: GoString)
    requires !HasPair(rest, DOT) && AllPlain(Split(rest))
    ensures CleanLoop(rest, out, 0, false) == Verbatim(out, rest)
    decreases |rest|
  {
    var e := ElementEnd(rest);
    assert PlainElement(Split(rest)[0]);
    CopyHead(rest, out);
    if e < |rest| {
      NoPairInTail(rest, DOT, e + 1);
      PlainByParts(rest);
      PlainIsCopied(rest[e + 1..], Verbatim(out, rest[..e]));
      VerbatimOf(out, rest[..e], rest[e + 1..]);
      InParts(rest);
    } else {
      assert rest[..e] == rest;
    }
  }

  lemma VerbatimLength(out: GoString, rest: GoString)
    ensures |Verbatim(out, rest)| == |out| + (if out == [] then 0 else 1) + |rest|
  {
  }

  // A slash and a dot element are skipped.
  lemma SkipHead(rest: GoString, out: GoString)
    requires rest != [] && (rest[0] == SLASH || IsDot(rest))
    ensures CleanLoop(rest, out, 0, false) == CleanLoop(rest[1..], out, 0, false)
  {
  }

  // Cleaning never writes more than the verbatim text, and less if some element is not plain.
  lemma {:induction false} CleaningShrinks(rest: GoString, out: GoString)
    requires !HasPair(rest, DOT) && (out != [] || rest != [])
    ensures |CleanLoop(rest, out, 0, false)| <= |Verbatim(out, rest)|
    ensures !AllPlain(Split(rest)) ==> |CleanLoop(rest, out, 0, false)| < |Verbatim(out, rest)|
    decreases |rest|
  {
    VerbatimLength(out, rest);
    if rest == [] {
    } else if rest[0] == SLASH || IsDot(rest) {
      SkipHead(rest, out);
      NoPairInTail(rest, DOT, 1);
      if out != [] || rest[1..] != [] {
        CleaningShrinks(rest[1..], out);
        VerbatimLength(out, rest[1..]);
      }
    } else {
      var e := ElementEnd(rest);
      PlainHead(rest);
      CopyHead(rest, out);
      VerbatimLength(out, rest[..e]);
      if e < |rest| {
        NoPairInTail(rest, DOT, e + 1);
        CleaningShrinks(rest[e + 1..], Verbatim(out, rest[..e]));
        VerbatimLength(Verbatim(out, rest[..e]), rest[e + 1..]);
        PlainByParts(rest);
      } else {
        WholeIsPlain(rest);
      }
    }
  }

  lemma WholeIsPlain(rest: GoString)
    requires ElementEnd(rest) == |rest| && PlainElement(Split(rest)[0])
    ensures AllPlain(Split(rest))
  {
  }

  // For a relative path without "..", cleaning changes nothing exactly when every element is plain, "." itself aside.
  lemma CleanExactly(key: GoString)
    requires key != [] && key[0] != SLASH && !HasPair(key, DOT)
    ensures Clean(key) == key <==> AllPlain(Split(key)) || key == [DOT]
  {
    assert Verbatim([], key) == key;
    if AllPlain(Split(key)) {
      PlainIsCopied(key, []);
    } else {
      CleaningShrinks(key, []);
      CleanDot();
    }
  }

  lemma CleanDot()
    ensures Clean([DOT]) == [DOT]
  {
    assert [DOT][1..] == [];
    assert IsDot([DOT]);
    assert CleanLoop([DOT], [], 0, false) == CleanLoop([DOT][1..], [], 0, false);
  }

  // --------------------------------------------------------- what is accepted, element by element

  /** A valid input key: "uploads" and at least one more element, none of them
      empty, "." or holding "..", and no control character anywhere. */
  predicate WellFormed(key: GoString) {
    var elements := Split(key);
    && |elements| >= 2 && elements[0] == UPLOADS
    && (forall i :: 0 <= i < |elements| ==> PlainElement(elements[i]) && NoDots(elements[i]))
    && (forall i :: 0 <= i < |key| ==> key[i] >= 32)
  }

  // No two dots in a row.
  predicate NoDots(s: GoString) { forall i :: 0 < i < |s| && s[i] == 46 ==> s[i - 1] != 46 }

  lemma NoDotsMeans(s: GoString)
    ensures NoDots(s) <==> !HasPair(s, DOT)
  {
    if !HasPair(s, DOT) {
      forall i | 0 < i < |s| && s[i] == 46
        ensures s[i - 1] != 46
      {
        assert i - 1 + 1 == i;
      }
    }
  }

  lemma NoDotsInElements(elements: seq<GoString>)
    ensures PairFree(elements) <==> forall i :: 0 <= i < |elements| ==> NoDots(elements[i])
  {
    forall i | 0 <= i < |elements|
      ensures NoDots(elements[i]) <==> !HasPair(elements[i], DOT)
    {
      NoDotsMeans(elements[i]);
    }
  }

  // The names in keys, spelled out.
  lemma NamesAreSpelled()
    ensures Text(UPLOADS) == "uploads" && Text(INPUT_PREFIX) == "uploads/" && Text(JPG) == ".jpg" && Text(PNG) == ".png"
  {
  }

  predicate PairFree(elements: seq<GoString>) { forall i :: 0 <= i < |elements| ==> !HasPair(elements[i], DOT) }

  lemma PairFreeByParts(head: GoString, tail: seq<GoString>)
    ensures PairFree([head] + tail) <==> !HasPair(head, DOT) && PairFree(tail)
  {
    var all := [head] + tail;
    forall i | 0 <= i < |all|
      ensures all[i] == if i == 0 then head else tail[i - 1]
    {
    }
    if !HasPair(head, DOT) && PairFree(tail) {
      forall i | 0 <= i < |all|
        ensures !HasPair(all[i], DOT)
      {
        if i > 0 {
          assert !HasPair(tail[i - 1], DOT);
        }
      }
    }
    if PairFree(all) {
      assert !HasPair(all[0], DOT);
      forall i | 0 <= i < |tail|
        ensures !HasPair(tail[i], DOT)
      {
        assert all[i + 1] == tail[i];
      }
    }
  }

  // ".." never spans a slash, so a path has it exactly when an element has it.
  lemma {:induction false} PairsStayInElements(s: GoString)
    ensures !HasPair(s, DOT) <==> PairFree(Split(s))
    decreases |s|
  {
    var e := ElementEnd(s);
    if e == |s| {
      PairFreeByParts(s, []);
      assert Split(s) == [s] + [];
    } else {
      var head, tail := s[..e], s[e + 1..];
      PairsStayInElements(tail);
      PairInParts(s, e);
      PairFreeByParts(head, Split(tail));
    }
  }

  lemma PairInParts(s: GoString, e: nat)
    requires e < |s| && s[e] == SLASH
    ensures HasPair(s, DOT) <==> HasPair(s[..e], DOT) || HasPair(s[e + 1..], DOT)
  {
    if HasPair(s, DOT) {
      var i :| 0 <= i < |s| - 1 && s[i] == DOT && s[i + 1] == DOT;
      if i < e {
        assert s[..e][i] == DOT && s[..e][i + 1] == DOT;
      } else {
        assert s[e + 1..][i - e - 1] == DOT && s[e + 1..][i - e - 1 + 1] == DOT;
      }
    }
    if HasPair(s[..e], DOT) {
      var i :| 0 <= i < e - 1 && s[..e][i] == DOT && s[..e][i + 1] == DOT;
      assert s[i] == DOT && s[i + 1] == DOT;
    }
    if HasPair(s[e + 1..], DOT) {
      var i :| 0 <= i < |s| - e - 2 && s[e + 1..][i] == DOT && s[e + 1..][i + 1] == DOT;
      assert s[e + 1 + i] == DOT && s[e + 1 + i + 1] == DOT;
    }
  }

  // A "//" after the first slash is a "//" of what follows it, or what follows starts with a slash.
  lemma DoubleSlashAfter(s: GoString)
    requires ElementEnd(s) < |s| && HasPair(s, SLASH)
    ensures var tail := s[ElementEnd(s) + 1..]; HasPair(tail, SLASH) || (tail != [] && tail[0] == SLASH)
  {
    var e := ElementEnd(s);
    var tail := s[e + 1..];
    var i :| 0 <= i < |s| - 1 && s[i] == SLASH && s[i + 1] == SLASH;
    if i > e {
      assert tail[i - e - 1] == SLASH && tail[i - e - 1 + 1] == SLASH;
    } else {
      assert tail[0] == SLASH;
    }
  }

  // An empty element inside a path is the only way to "//".
  lemma {:induction false} PlainHasNoDoubleSlash(s: GoString)
    requires AllPlain(Split(s))
    ensures !HasPair(s, SLASH) && s != [] && s[0] != SLASH
    decreases |s|
  {
    var e := ElementEnd(s);
    assert PlainElement(Split(s)[0]);
    if e < |s| {
      PlainByParts(s);
      PlainHasNoDoubleSlash(s[e + 1..]);
      assert !HasPair(s, SLASH) by {
        if HasPair(s, SLASH) {
          DoubleSlashAfter(s);
        }
      }
    }
  }

  lemma PrefixIsFirstElement(key: GoString)
    ensures HasPrefix(key, INPUT_PREFIX) <==> |Split(key)| >= 2 && Split(key)[0] == UPLOADS
  {
    if HasPrefix(key, INPUT_PREFIX) {
      assert key == UPLOADS + [SLASH] + key[8..];
      assert SlashFree(UPLOADS);
      SplitHead(UPLOADS, key[8..]);
    }
    if |Split(key)| >= 2 && Split(key)[0] == UPLOADS {
      InParts(key);
    }
  }

  /** ValidateInputKey accepts exactly the well-formed keys. */
  lemma AcceptedExactly(key: GoString)
    ensures ValidateInputKey(key).None? <==> WellFormed(key)
  {
    PrefixIsFirstElement(key);
    PairsStayInElements(key);
    NoDotsInElements(Split(key));
    if HasPrefix(key, INPUT_PREFIX) && !HasPair(key, DOT) {
      assert key[0] == UPLOADS[0];
      CleanExactly(key);
      if AllPlain(Split(key)) {
        PlainHasNoDoubleSlash(key);
      }
    }
  }

  // ------------------------------------------------------------------- round trips

  /** A token of an accepted key decodes to that key; whatever decodes is accepted. */
  lemma TokenRoundTrip(key: GoString, token: GoString)
    ensures DecodeUploadID(EncodeUploadID(key)) == if WellFormed(key) then Key(key) else InvalidKey
    ensures DecodeUploadID(token).Key? ==> WellFormed(DecodeUploadID(token).key)
  {
    UploadTokens.RoundTrip(key);
    AcceptedExactly(key);
    if DecodeUploadID(token).Key? {
      AcceptedExactly(DecodeUploadID(token).key);
    }
  }

  // Every accepted key has a second token, so a token does not identify an upload.
  lemma SecondUploadToken(key: GoString)
    requires ValidateInputKey(key).None?
    ensures exists token :: token != EncodeUploadID(key) && DecodeUploadID(token) == Key(key)
  {
    UploadTokens.SecondToken(key);
    var token := [UploadTokens.LF] + EncodeUploadID(key);
    assert token != EncodeUploadID(key) && DecodeUploadID(token) == Key(key);
  }

  // ----------------------------------------------------------------------- minting

  // fmt's %0*d on a non-negative int.
  function Padded(n: nat, width: nat): GoString {
    var text := RequestHash.Decimal(n);
    seq(if |text| < width then width - |text| else 0, _ => RequestHash.ZERO) + text
  }

  // ".jpg" and ".png"
  const JPG: GoString := [46, 106, 112, 103]
  const PNG: GoString := [46, 112, 110, 103]

  predicate IsHexOrDash(b: byte) { 48 <= b <= 57 || 97 <= b <= 102 || b == 45 }

  // The canonical text form of a UUID.
  predicate IsUuidText(text: GoString) { |text| == 36 && forall i :: 0 <= i < 36 ==> IsHexOrDash(text[i]) }

  function Lower(s: GoString): GoString {
    seq(|s|, i requires 0 <= i < |s| => if 65 <= s[i] <= 90 then s[i] + 32 else s[i])
  }

  // supportedExtensions: ".jpg" and ".jpeg" give ".jpg", ".png" itself, and anything unknown ".jpg".
  function CanonicalExtension(ext: GoString): GoString { if Lower(ext) == PNG then PNG else JPG }

  // GenerateInputKey for the given date and fresh UUID.
  function GenerateInputKey(ext: GoString, year: nat, month: nat, uuid: GoString): GoString {
    UPLOADS + [SLASH] + (Padded(year, 4) + [SLASH] + (Padded(month, 2) + [SLASH] + (uuid + CanonicalExtension(ext))))
  }

  // No slash, no dot and no control character.
  predicate Tame(s: GoString) { s != [] && forall i :: 0 <= i < |s| ==> s[i] > 47 || s[i] == 45 }

  lemma PaddedIsTame(n: nat, width: nat)
    ensures Tame(Padded(n, width))
  {
    var text := RequestHash.Decimal(n);
    forall i | 0 <= i < |Padded(n, width)|
      ensures RequestHash.IsDigit(Padded(n, width)[i])
    {
      var zeros := |Padded(n, width)| - |text|;
      if i >= zeros {
        assert RequestHash.IsDigit(text[i - zeros]);
      }
    }
  }

  lemma TameElement(s: GoString)
    requires Tame(s)
    ensures SlashFree(s) && PlainElement(s) && !HasPair(s, DOT) && !HasControl(s)
  {
    assert s[0] != DOT;
  }

  lemma NameElement(uuid: GoString, ext: GoString)
    requires IsUuidText(uuid)
    ensures var s := uuid + CanonicalExtension(ext);
            SlashFree(s) && PlainElement(s) && !HasPair(s, DOT) && !HasControl(s)
  {
    var suffix := CanonicalExtension(ext);
    var s := uuid + suffix;
    assert forall i :: 0 <= i < |s| ==> s[i] == if i < 36 then uuid[i] else suffix[i - 36];
    assert forall i :: 0 <= i < |s| ==>
        if i < 36 then IsHexOrDash(s[i]) else s[i] in suffix && (s[i] == DOT <==> i == 36);
  }

  lemma ControlInParts(a: GoString, b: GoString)
    requires !HasControl(a) && !HasControl(b)
    ensures !HasControl(a + [SLASH] + b)
  {
  }

  lemma SplitFour(a: GoString, b: GoString, c: GoString, d: GoString)
    requires SlashFree(a) && SlashFree(b) && SlashFree(c) && SlashFree(d)
    ensures Split(a + [SLASH] + (b + [SLASH] + (c + [SLASH] + d))) == [a, b, c, d]
  {
    SplitHead(d, []);
    SplitHead(c, d);
    SplitHead(b, c + [SLASH] + d);
    SplitHead(a, b + [SLASH] + (c + [SLASH] + d));
    assert [a] + ([b] + ([c] + [d])) == [a, b, c, d];
  }

  lemma MintedElements(ext: GoString, year: nat, month: nat, uuid: GoString)
    requires IsUuidText(uuid)
    ensures Split(GenerateInputKey(ext, year, month, uuid))
            == [UPLOADS, Padded(year, 4), Padded(month, 2), uuid + CanonicalExtension(ext)]
    ensures !HasControl(GenerateInputKey(ext, year, month, uuid))
  {
    var y, m, name := Padded(year, 4), Padded(month, 2), uuid + CanonicalExtension(ext);
    PaddedIsTame(year, 4);
    PaddedIsTame(month, 2);
    TameElement(y);
    TameElement(m);
    TameElement(UPLOADS);
    NameElement(uuid, ext);
    SplitFour(UPLOADS, y, m, name);
    ControlInParts(m, name);
    ControlInParts(y, m + [SLASH] + name);
    ControlInParts(UPLOADS, y + [SLASH] + (m + [SLASH] + name));
  }

  lemma FourElementsAccepted(key: GoString, a: GoString, b: GoString, c: GoString)
    requires Split(key) == [UPLOADS, a, b, c] && !HasControl(key)
    requires PlainElement(a) && PlainElement(b) && PlainElement(c)
    requires !HasPair(a, DOT) && !HasPair(b, DOT) && !HasPair(c, DOT)
    ensures WellFormed(key)
  {
    TameElement(UPLOADS);
    NoDotsInElements(Split(key));
  }

  // Every minted key is accepted.
  lemma MintedIsAccepted(ext: GoString, year: nat, month: nat, uuid: GoString)
    requires IsUuidText(uuid)
    ensures ValidateInputKey(GenerateInputKey(ext, year, month, uuid)).None?
  {
    var key := GenerateInputKey(ext, year, month, uuid);
    MintedElements(ext, year, month, uuid);
    PaddedIsTame(year, 4);
    PaddedIsTame(month, 2);
    TameElement(Padded(year, 4));
    TameElement(Padded(month, 2));
    NameElement(uuid, ext);
    FourElementsAccepted(key, Padded(year, 4), Padded(month, 2), uuid + CanonicalExtension(ext));
    AcceptedExactly(key);
  }

  // Minted keys for different uploads differ: the UUID can be read back from the key.
  lemma MintedKeysDiffer(ext: GoString, year: nat, month: nat, uuid: GoString,
                         ext': GoString, year': nat, month': nat, uuid': GoString)
    requires IsUuidText(uuid) && IsUuidText(uuid')
    requires GenerateInputKey(ext, year, month, uuid) == GenerateInputKey(ext', year', month', uuid')
    ensures uuid == uuid' && CanonicalExtension(ext) == CanonicalExtension(ext')
  {
    var a, b := uuid + CanonicalExtension(ext), uuid' + CanonicalExtension(ext');
    MintedElements(ext, year, month, uuid);
    MintedElements(ext', year', month', uuid');
    assert [UPLOADS, Padded(year, 4), Padded(month, 2), a][3] == [UPLOADS, Padded(year', 4), Padded(month', 2), b][3];
    assert a[..36] == uuid && b[..36] == uuid';
    assert a[36..] == CanonicalExtension(ext) && b[36..] == CanonicalExtension(ext');
  }
}
