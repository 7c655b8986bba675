/** Command ids: sixteen random bytes written as a UUID of version 4 (section 5.4 of RFC 9562), and the check of that shape. */
module CommandId {
  type Byte = b: int | 0 <= b < 256

  function HexDigit(nibble: int): (c: char)
    requires 0 <= nibble < 16
    ensures IsHex(c) && HexValue(c) == nibble
  {
    if nibble < 10 then '0' + nibble as char else 'a' + (nibble - 10) as char
  }

  predicate IsHex(c: char) {
    '0' <= c <= '9' || 'a' <= c <= 'f'
  }

  function HexValue(c: char): (value: int)
    requires IsHex(c)
    ensures 0 <= value < 16
  {
    if c <= '9' then (c - '0') as int else (c - 'a') as int + 10
  }

  predicate DashBefore(index: nat) {
    index == 4 || index == 6 || index == 8 || index == 10
  }

  predicate DashAt(position: nat) {
    position == 8 || position == 13 || position == 18 || position == 23
  }

  /** Where byte `index` is written. */
  function Position(index: nat): nat {
    2 * index + (if index < 4 then 0 else if index < 6 then 1 else if index < 8 then 2 else if index < 10 then 3 else 4)
  }

  /** Version 4 in the high half of byte 6, variant 10 in the top two bits of byte 8; the masks written as arithmetic. */
  function Marked(random: seq<Byte>): (bytes: seq<Byte>)
    requires |random| == 16
    ensures |bytes| == 16
  {
    random[6 := random[6] % 0x10 + 0x40][8 := random[8] % 0x40 + 0x80]
  }

  // ---------------------------------------------------------------- formatting

  /** The text of the first `count` bytes. */
  function Text(bytes: seq<Byte>, count: nat): (text: string)
    requires count <= |bytes| == 16
    ensures count > 0 ==> |text| == Position(count - 1) + 2
    ensures count == 0 ==> text == ""
  {
    if count == 0 then ""
    else
      Text(bytes, count - 1) + (if DashBefore(count - 1) then "-" else "") +
      [HexDigit(bytes[count - 1] / 16), HexDigit(bytes[count - 1] % 16)]
  }

  function Format(random: seq<Byte>): (text: string)
    requires |random| == 16
  {
    Text(Marked(random), 16)
  }

  method FormatUuidV4(random: array<Byte>) returns (output: string)
    requires random.Length == 16
    modifies random
    ensures output == Format(old(random[..]))
    ensures IsUuidV4Shape(output)
  {
    random[6] := random[6] % 0x10 + 0x40;
    random[8] := random[8] % 0x40 + 0x80;
    assert random[..] == Marked(old(random[..]));
    output := "";
    var index := 0;
    while index < random.Length
      invariant 0 <= index <= 16
      invariant random[..] == Marked(old(random[..]))
      invariant output == Text(random[..], index)
    {
      if DashBefore(index) {
        output := output + "-";
      }
      output := output + [HexDigit(random[index] / 16)];
      output := output + [HexDigit(random[index] % 16)];
      index := index + 1;
    }
    FormattedIsAccepted(old(random[..]));
  }

  // ---------------------------------------------------------------- the shape

  ghost predicate IsUuidV4Shape(text: string) {
    && |text| == 36
    && (forall k :: 0 <= k < 36 ==> if DashAt(k) then text[k] == '-' else IsHex(text[k]))
    && text[14] == '4' && text[19] in {'8', '9', 'a', 'b'}
  }

  method CheckUuidV4Shape(text: string) returns (accepted: bool)
    ensures accepted <==> IsUuidV4Shape(text)
  {
    if |text| != 36 || text[8] != '-' || text[13] != '-' || text[18] != '-' || text[23] != '-' {
      return false;
    }
    var index := 0;
    while index < |text|
      invariant 0 <= index <= 36
      invariant forall k :: 0 <= k < index ==> if DashAt(k) then text[k] == '-' else IsHex(text[k])
    {
      if !DashAt(index) {
        var character := text[index];
        if !('0' <= character <= '9') && (character < 'a' || character > 'f') {
          return false;
        }
      }
      index := index + 1;
    }
    return text[14] == '4' && (text[19] == '8' || text[19] == '9' || text[19] == 'a' || text[19] == 'b');
  }

  /** The sixteen bytes a text of the right shape stands for. */
  function Decode(text: string): (bytes: seq<Byte>)
    requires |text| == 36 && forall k :: 0 <= k < 36 && !DashAt(k) ==> IsHex(text[k])
    ensures |bytes| == 16
  {
    seq(16, index requires 0 <= index < 16 =>
      assert !DashAt(Position(index)) && !DashAt(Position(index) + 1);
      (HexValue(text[Position(index)]) * 16 + HexValue(text[Position(index) + 1])) as Byte)
  }

  // ---------------------------------------------------------------- the two agree

  lemma {:induction false} TextAt(bytes: seq<Byte>, count: nat, k: nat)
    requires k < count <= |bytes| == 16
    ensures Position(k) + 1 < |Text(bytes, count)|
    ensures Text(bytes, count)[Position(k)] == HexDigit(bytes[k] / 16)
    ensures Text(bytes, count)[Position(k) + 1] == HexDigit(bytes[k] % 16)
    ensures DashBefore(k) ==> Text(bytes, count)[Position(k) - 1] == '-'
  {
    if k < count - 1 {
      TextAt(bytes, count - 1, k);
    }
  }

  /** Every position is a dash or belongs to one byte. */
  lemma PositionsCover(position: nat)
    requires position < 36
    ensures DashAt(position) || exists k :: 0 <= k < 16 && (position == Position(k) || position == Position(k) + 1)
    ensures DashAt(position) ==> exists k :: 0 <= k < 16 && DashBefore(k) && position == Position(k) - 1
  {
    var k := if position < 8 then position / 2
             else if position < 13 then (position - 1) / 2
             else if position < 18 then (position - 2) / 2
             else if position < 23 then (position - 3) / 2
             else (position - 4) / 2;
    if !DashAt(position) {
      assert position == Position(k) || position == Position(k) + 1;
    } else {
      assert DashBefore(k + 1) && position == Position(k + 1) - 1;
    }
  }

  lemma FormattedIsAccepted(random: seq<Byte>)
    requires |random| == 16
    ensures IsUuidV4Shape(Format(random))
  {
    var bytes := Marked(random);
    var text := Format(random);
    forall p | 0 <= p < 36 ensures if DashAt(p) then text[p] == '-' else IsHex(text[p]) {
      PositionsCover(p);
      if DashAt(p) {
        var k :| 0 <= k < 16 && DashBefore(k) && p == Position(k) - 1;
        TextAt(bytes, 16, k);
      } else {
        var k :| 0 <= k < 16 && (p == Position(k) || p == Position(k) + 1);
        TextAt(bytes, 16, k);
      }
    }
    TextAt(bytes, 16, 6);
    TextAt(bytes, 16, 8);
  }

  /** Decoding gives the input back except for the six fixed bits. */
  lemma DecodeFormat(random: seq<Byte>)
    requires |random| == 16
    ensures IsUuidV4Shape(Format(random)) && Decode(Format(random)) == Marked(random)
    ensures forall k :: 0 <= k < 16 && k != 6 && k != 8 ==> Decode(Format(random))[k] == random[k]
    ensures Decode(Format(random))[6] % 0x10 == random[6] % 0x10 && Decode(Format(random))[6] / 0x10 == 4
    ensures Decode(Format(random))[8] % 0x40 == random[8] % 0x40 && Decode(Format(random))[8] / 0x40 == 2
  {
    FormattedIsAccepted(random);
    forall k | 0 <= k < 16 ensures Decode(Format(random))[k] == Marked(random)[k] {
      TextAt(Marked(random), 16, k);
    }
  }

  lemma DecodedByte(text: string, k: nat)
    requires IsUuidV4Shape(text) && k < 16
    ensures !DashAt(Position(k)) && !DashAt(Position(k) + 1)
    ensures HexDigit(Decode(text)[k] / 16) == text[Position(k)] && HexDigit(Decode(text)[k] % 16) == text[Position(k) + 1]
  {
  }

  lemma DecodedIsMarked(text: string)
    requires IsUuidV4Shape(text)
    ensures Marked(Decode(text)) == Decode(text)
  {
    var bytes := Decode(text);
    DecodedByte(text, 6);
    DecodedByte(text, 8);
    assert HexValue(text[Position(6)]) == 4 && 8 <= HexValue(text[Position(8)]) < 12;
    hide Decode;
    assert bytes[6] / 16 == 4 && 8 <= bytes[8] / 16 < 12;
  }

  lemma SameText(text: string)
    requires IsUuidV4Shape(text)
    ensures Format(Decode(text)) == text
  {
    var bytes := Decode(text);
    DecodedIsMarked(text);
    FormattedIsAccepted(bytes);
    var formatted := Format(bytes);
    forall p | 0 <= p < 36 ensures text[p] == formatted[p] {
      PositionsCover(p);
      if !DashAt(p) {
        var k :| 0 <= k < 16 && (p == Position(k) || p == Position(k) + 1);
        TextAt(bytes, 16, k);
        DecodedByte(text, k);
      }
    }
  }

  /** The check accepts exactly what the formatter produces. */
  lemma AcceptedIsFormatted(text: string)
    ensures IsUuidV4Shape(text) <==> exists random: seq<Byte> :: |random| == 16 && text == Format(random)
  {
    if IsUuidV4Shape(text) {
      SameText(text);
      assert |Decode(text)| == 16 && text == Format(Decode(text));
    }
    if random: seq<Byte> :| |random| == 16 && text == Format(random) {
      FormattedIsAccepted(random);
    }
  }
}
