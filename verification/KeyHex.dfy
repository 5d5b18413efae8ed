/** The file key as 64 hexadecimal digits, the form in which it travels in a share link. */
module KeyHex {
  import opened Basics
  import opened Bytes

  const KEY_LENGTH: nat := 32

  datatype ImportResult = Imported(key: seq<Byte>) | InvalidKey

  function DigitChar(d: nat): char
    requires d < 16
  {
    if d < 10 then ('0' as int + d) as char else ('a' as int + d - 10) as char
  }

  /** toString(16).padStart(2, '0') of one byte. */
  function HexByte(b: Byte): string {
    [DigitChar(b / 16), DigitChar(b % 16)]
  }

  /** The export in generateKey. */
  function ExportKey(bytes: seq<Byte>): string {
    if bytes == [] then "" else HexByte(bytes[0]) + ExportKey(bytes[1..])
  }

  /** The bytes of an even number of digits, two at a time. */
  function Pairs(text: string): seq<Byte>
    requires |text| % 2 == 0
  {
    if text == "" then [] else [Digit(text[0]) * 16 + Digit(text[1])] + Pairs(text[2..])
  }

  /** importKey */
  function ImportKey(text: string): ImportResult {
    if |text| == 2 * KEY_LENGTH && forall i :: 0 <= i < |text| ==> IsDigit(text[i], 16)
    then Imported(Pairs(text))
    else InvalidKey
  }

  lemma DigitCharIsDigit(d: nat)
    requires d < 16
    ensures IsDigit(DigitChar(d), 16) && Digit(DigitChar(d)) == d
  {
  }

  lemma {:induction false} PairsUndoExport(bytes: seq<Byte>)
    ensures |ExportKey(bytes)| == 2 * |bytes| && Pairs(ExportKey(bytes)) == bytes
    ensures forall i :: 0 <= i < |ExportKey(bytes)| ==> IsDigit(ExportKey(bytes)[i], 16)
  {
    if bytes != [] {
      PairsUndoExport(bytes[1..]);
      DigitCharIsDigit(bytes[0] / 16);
      DigitCharIsDigit(bytes[0] % 16);
      assert ExportKey(bytes)[2..] == ExportKey(bytes[1..]);
      assert bytes == [bytes[0]] + bytes[1..];
    }
  }

  /** Every exported 256-bit key is imported again as it was; so no two keys are exported alike. */
  lemma KeyRoundTrip(key: seq<Byte>)
    requires |key| == KEY_LENGTH
    ensures ImportKey(ExportKey(key)) == Imported(key)
  {
    PairsUndoExport(key);
  }

  lemma {:induction false} PairsLength(text: string)
    requires |text| % 2 == 0
    ensures |Pairs(text)| == |text| / 2
  {
    if text != "" {
      PairsLength(text[2..]);
    }
  }

  /** Two texts of digits that differ in the case of letters only. */
  ghost predicate SameDigits(a: string, b: string) {
    |a| == |b| && forall i :: 0 <= i < |b| ==> Digit(a[i]) == Digit(b[i])
  }

  ghost predicate AllHex(text: string) {
    forall i :: 0 <= i < |text| ==> IsDigit(text[i], 16)
  }

  /** What is imported is a 256-bit key, and exporting it gives the text again up to the case of its letters. */
  lemma ImportedIsExported(text: string)
    requires ImportKey(text).Imported?
    ensures |ImportKey(text).key| == KEY_LENGTH && SameDigits(ExportKey(ImportKey(text).key), text)
  {
    PairsLength(text);
    ExportUndoesPairs(text);
  }

  lemma {:induction false} ExportUndoesPairs(text: string)
    requires |text| % 2 == 0 && AllHex(text)
    ensures SameDigits(ExportKey(Pairs(text)), text)
  {
    if text != "" {
      ExportUndoesPairs(text[2..]);
      ExportFirstPair(text);
      TwoMore(text, ExportKey(Pairs(text[2..])));
    }
  }

  lemma ExportFirstPair(text: string)
    requires |text| % 2 == 0 && text != "" && AllHex(text)
    ensures ExportKey(Pairs(text)) == HexByte(Digit(text[0]) * 16 + Digit(text[1])) + ExportKey(Pairs(text[2..]))
  {
    ExportCons(Digit(text[0]) * 16 + Digit(text[1]), Pairs(text[2..]));
  }

  lemma ExportCons(b: Byte, rest: seq<Byte>)
    ensures ExportKey([b] + rest) == HexByte(b) + ExportKey(rest)
  {
    assert ([b] + rest)[1..] == rest;
  }

  lemma HexOfPair(high: nat, low: nat)
    requires high < 16 && low < 16
    ensures HexByte(high * 16 + low) == [DigitChar(high), DigitChar(low)]
  {
    EuclideanUnique(high * 16 + low, 16, high, low);
  }

  lemma TwoMore(text: string, shorter: string)
    requires |text| >= 2 && AllHex(text) && SameDigits(shorter, text[2..])
    ensures SameDigits(HexByte(Digit(text[0]) * 16 + Digit(text[1])) + shorter, text)
  {
    HexOfPair(Digit(text[0]), Digit(text[1]));
    DigitCharIsDigit(Digit(text[0]));
    DigitCharIsDigit(Digit(text[1]));
    forall i | 2 <= i < |text|
      ensures Digit(shorter[i - 2]) == Digit(text[i])
    {
      assert text[2..][i - 2] == text[i];
    }
  }
}
