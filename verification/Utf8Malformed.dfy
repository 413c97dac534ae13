/**
 * What the decoders do to every byte string, well formed or not, by ranges of bytes and
 * arithmetic: neither converter looks at the two top bits of a byte after the first, so that
 * a sequence is malformed to them only by its first byte, its length or its value.
 */
module Utf8Malformed {
  import opened Transcoding
  import opened Utf8Grammar
  import opened Wrappers

  /** How many bytes a first byte announces, 0 when it can start nothing. */
  function Announced(first: Byte): nat {
    if first <= 0x7F then 1
    else if 0xC0 <= first <= 0xDF then 2
    else if 0xE0 <= first <= 0xEF then 3
    else if 0xF0 <= first <= 0xF7 then 4
    else 0
  }

  /** All the bytes announced are there. */
  predicate Complete(b: seq<Byte>) {
    b != [] && 1 <= Announced(b[0]) <= |b|
  }

  /** Six bits of a byte after the first, whatever the two above them are. */
  function Tail(b: Byte): CodePoint { b as CodePoint % 0x40 }

  function Lead(b: Byte, base: CodePoint): CodePoint { b as CodePoint - base }

  /** The number that as many bytes as the first announces carry. */
  function Carried(b: seq<Byte>): CodePoint
    requires Complete(b)
  {
    match Announced(b[0])
    case 1 => b[0] as CodePoint
    case 2 => Lead(b[0], 0xC0) * 0x40 + Tail(b[1])
    case 3 => Sum3(Lead(b[0], 0xE0), Tail(b[1]), Tail(b[2]))
    case _ => Sum4(Lead(b[0], 0xF0), Tail(b[1]), Tail(b[2]), Tail(b[3]))
  }

  // ---------------------------------------------------------------- masks are ranges

  lemma AnnouncedIs(first: Byte)
    ensures SequenceLength(first) == Announced(first)
    ensures first <= 0x7F <==> Announced(first) == 1
  {
  }

  lemma TailIs(b: Byte)
    ensures Low6(b) == Tail(b) < 0x40
  {
  }

  lemma LeadIs(a: Byte)
    ensures 0xE0 <= a <= 0xEF ==> Low4(a) == Lead(a, 0xE0) < 0x10
    ensures 0xF0 <= a <= 0xF7 ==> Low3(a) == Lead(a, 0xF0) < 0x8
  {
  }

  lemma TwoIs(a: Byte, b: Byte)
    requires 0xC0 <= a <= 0xDF
    ensures Payload2(a, b) == Lead(a, 0xC0) * 0x40 + Tail(b)
  {
  }

  lemma CarriedIs(b: seq<Byte>)
    requires Complete(b)
    ensures DecodeSequence(b, Announced(b[0])) == Carried(b)
  {
    hide Low3, Low4, Low6, Tail, Lead, Groups3, Groups4, Sum3, Sum4, Payload2;
    LeadIs(b[0]);
    var n := Announced(b[0]);
    if n > 1 { TailIs(b[1]); }
    if n > 2 { TailIs(b[2]); }
    if n > 3 { TailIs(b[3]); }
    if n == 2 { TwoIs(b[0], b[1]); }
    if n == 3 { Join3(Lead(b[0], 0xE0), Tail(b[1]), Tail(b[2])); }
    if n == 4 { Join4(Lead(b[0], 0xF0), Tail(b[1]), Tail(b[2]), Tail(b[3])); }
  }

  // ---------------------------------------------------------------- one step, for every input

  lemma TooLarge(v: CodePoint)
    ensures EncodeUtf16(v).None? <==> v > 0x10FFFF
  {
  }

  /** A first byte that starts nothing, or announces more than is left, becomes U+FFFD alone. */
  lemma MalformedIsReplaced(b: seq<Byte>)
    requires b != []
    requires || 0x80 <= b[0] <= 0xBF || 0xF8 <= b[0]
             || (0xC0 <= b[0] <= 0xDF && |b| < 2)
             || (0xE0 <= b[0] <= 0xEF && |b| < 3)
             || (0xF0 <= b[0] <= 0xF7 && |b| < 4)
    ensures Decode(b) == [0xFFFD] + Decode(b[1..]) && DecodeStrict(b) == None
  {
    hide SequenceLength, EncodeUtf16, DecodeSequence;
    AnnouncedIs(b[0]);
  }

  /** A complete sequence is replaced as a whole, and stops the strict decoder, exactly when its number is too large. */
  lemma CompleteIsDecoded(b: seq<Byte>)
    requires Complete(b)
    ensures (var rest := b[Announced(b[0])..];
             if Carried(b) > 0x10FFFF
             then Decode(b) == [0xFFFD] + Decode(rest) && DecodeStrict(b) == None
             else Decode(b) == Utf16Form(Carried(b)) + Decode(rest)
                  && DecodeStrict(b) == Prepend(Utf16Form(Carried(b)), DecodeStrict(rest)))
  {
    hide SequenceLength, EncodeUtf16, DecodeSequence, Carried, Announced, Utf16Form;
    AnnouncedIs(b[0]);
    CarriedIs(b);
    TooLarge(Carried(b));
    if Carried(b) <= 0x10FFFF { Utf16FormIsEncoded(Carried(b)); }
    if b[0] <= 0x7F { AsciiIsItself(b); }
  }

  lemma AsciiIsItself(b: seq<Byte>)
    requires Complete(b) && b[0] <= 0x7F
    ensures Carried(b) <= 0x10FFFF && Utf16Form(Carried(b)) == [b[0] as CodeUnit] && Announced(b[0]) == 1
  {
  }

  /** A complete sequence of four bytes above U+10FFFF, by its bytes. */
  lemma TooLargeIsReplaced(b: seq<Byte>)
    requires |b| >= 4 && (0xF5 <= b[0] <= 0xF7 || (b[0] == 0xF4 && b[1] % 0x40 >= 0x10))
    ensures Decode(b) == [0xFFFD] + Decode(b[4..]) && DecodeStrict(b) == None
  {
    hide Decode, DecodeStrict, Sum4;
    LargeLead(b[0], b[1], b[2], b[3]);
    CompleteIsDecoded(b);
  }

  lemma LargeLead(a: Byte, b: Byte, c: Byte, d: Byte)
    requires 0xF5 <= a <= 0xF7 || (a == 0xF4 && b % 0x40 >= 0x10)
    ensures Sum4(Lead(a, 0xF0), Tail(b), Tail(c), Tail(d)) > 0x10FFFF
  {
  }

  // ---------------------------------------------------------------- when the strict decoder throws

  predicate Decodable(b: seq<Byte>) {
    b == [] || (Complete(b) && Carried(b) <= 0x10FFFF && Decodable(b[Announced(b[0])..]))
  }

  /** Utf8ToUtf16 succeeds exactly on sequences that are complete and not too large, one after the other. */
  lemma {:induction false} StrictDecodesExactlyWhen(b: seq<Byte>)
    ensures DecodeStrict(b).Some? <==> Decodable(b)
  {
    hide DecodeStrict, Carried;
    if b == [] {
      NothingIsDecoded();
    } else if Complete(b) {
      CompleteIsDecoded(b);
      StrictDecodesExactlyWhen(b[Announced(b[0])..]);
    } else {
      MalformedIsReplaced(b);
    }
  }

  lemma NothingIsDecoded()
    ensures DecodeStrict([]) == Some([])
  {
  }
}
