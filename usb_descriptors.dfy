/** The USB string descriptors of the joystick (section 9.6.7 of the USB 2.0
    specification): a header word holding `bLength` in its low byte and
    `bDescriptorType` (STRING, 3) in its high byte, followed by the string as
    UTF-16 code units. The descriptors are built in one static 32-word buffer
    that every request reuses. The board's unique ID string, which the SDK
    reads from the flash chip, is a parameter. */
module UsbDescriptors {
  import opened CTypes

  const USB_MANUFACTURER_INDEX: int := 1
  const USB_PRODUCT_INDEX: int := 2
  const USB_SERIAL_NUMBER_INDEX: int := 3
  /** `TUSB_DESC_STRING`. */
  const DESC_STRING: int := 3
  /** Words in the static descriptor buffer. */
  const DESC_WORDS: int := 32
  /** Words the per-request `memset` of 32 bytes clears. */
  const CLEARED_WORDS: int := 16
  /** Longest table string sent, in characters. */
  const MAX_CHARS: int := 31
  /** `PICO_UNIQUE_BOARD_ID_SIZE_BYTES`: the ID string has two hex digits per byte. */
  const BOARD_ID_BYTES: int := 8

  /** `string_desc_arr`: entry 0 holds the two bytes of the supported language
      ID, English (0x0409), low byte first; entry 3 is NULL, the serial number
      coming from the board ID instead. */
  const STRING_DESC_ARR: seq<Option<string>> := [
    Some([9 as char, 4 as char]),
    Some("April's Creature Workshop"),
    Some("Joystick"),
    None,
    Some("Knobs and Buttons"),
    Some("Debug Console")
  ]

  /** The header word: `bLength` = 2 bytes per code unit plus the 2 header
      bytes, in the low byte; the descriptor type in the high byte. */
  function Header(chrCount: int): (w: int)
    requires 0 <= chrCount <= MAX_CHARS
    ensures w % 256 == 2 * chrCount + 2
    ensures w / 256 == DESC_STRING
  {
    DESC_STRING * 256 + (2 * chrCount + 2)
  }

  /** The code units of an ASCII string: one per character, unchanged. */
  function CodeUnits(s: string): (units: seq<int>)
    ensures |units| == |s|
    ensures forall i :: 0 <= i < |s| ==> units[i] == s[i] as int
  {
    seq(|s|, i requires 0 <= i < |s| => s[i] as int)
  }

  /** `strlen` of a table string with the 31-character cap applied. */
  function Capped(s: string): (c: string)
    ensures |c| <= MAX_CHARS
    ensures |s| <= MAX_CHARS ==> c == s
    ensures |s| > MAX_CHARS ==> |c| == MAX_CHARS
    ensures c == s[..|c|]
  {
    if |s| > MAX_CHARS then s[..MAX_CHARS] else s
  }

  /** A character string as the C code sees it: no NUL inside. */
  predicate NoNul(s: string) {
    forall i :: 0 <= i < |s| ==> s[i] != 0 as char
  }

  /** The board ID string the SDK produces: 16 hex digits. Only its length
      and the absence of a NUL matter to the descriptor code, so the
      predicate deliberately does not insist on hex digits. */
  predicate BoardIdString(s: string) {
    |s| == 2 * BOARD_ID_BYTES && NoNul(s)
  }

  /** The code units a request is answered with, or `None` for the NULL
      answer. */
  function Payload(index: Byte, boardId: string): (p: Option<seq<int>>)
    requires BoardIdString(boardId)
    // the language ID list holds the single code unit 0x0409
    ensures index == 0 ==> p == Some([0x0409])
    // the serial number is the board ID, not capped
    ensures index == USB_SERIAL_NUMBER_INDEX ==> p == Some(CodeUnits(boardId))
    // indexes beyond the table have no string
    ensures p.None? <==> index >= |STRING_DESC_ARR|
    // every other string comes from the table, capped at 31 characters
    ensures index != 0 && index != USB_SERIAL_NUMBER_INDEX && index < |STRING_DESC_ARR| ==>
              STRING_DESC_ARR[index].Some? &&
              var s := STRING_DESC_ARR[index].value;
              p == Some(CodeUnits(Capped(s)))
    ensures p.Some? ==> |p.value| <= MAX_CHARS
  {
    if index == 0 then
      var lang := STRING_DESC_ARR[0].value;
      Some([lang[0] as int + 256 * lang[1] as int])
    else if index == USB_SERIAL_NUMBER_INDEX then
      Some(CodeUnits(boardId))
    else if index >= |STRING_DESC_ARR| then
      None
    else
      var s := STRING_DESC_ARR[index].value;
      Some(CodeUnits(Capped(s)))
  }

  /** What a host reads from a descriptor buffer: the code units after the
      header, as many as `bLength` announces. */
  function Received(words: seq<int>): (units: seq<int>)
    requires |words| == DESC_WORDS
    requires 2 <= words[0] % 256 <= 2 * DESC_WORDS
  {
    words[1..(words[0] % 256) / 2]
  }

  /** The string the host decodes from the code units. */
  function Ascii(units: seq<int>): (s: string)
    requires forall i :: 0 <= i < |units| ==> IsCharCode(units[i])
    ensures |s| == |units|
  {
    seq(|units|, i requires 0 <= i < |units| && IsCharCode(units[i]) => units[i] as char)
  }

  /** A value that is the code of a character. */
  predicate IsCharCode(u: int) {
    0 <= u < 0xD800 || 0xE000 <= u < 0x11_0000
  }

  /** The code units give the characters back. */
  lemma {:induction false} AsciiOfCodeUnits(s: string)
    ensures forall i :: 0 <= i < |s| ==> IsCharCode(CodeUnits(s)[i])
    ensures Ascii(CodeUnits(s)) == s
  {
    var u := CodeUnits(s);
    assert forall i :: 0 <= i < |s| ==> u[i] == s[i] as int;
  }

  /** The static `_desc_str` buffer. */
  class DescriptorBuffer {
    const words: array<int>

    ghost predicate Valid()
      reads this
    {
      words.Length == DESC_WORDS
    }

    constructor ()
      ensures Valid()
      ensures forall k :: 0 <= k < DESC_WORDS ==> words[k] == 0
    {
      words := new int[DESC_WORDS](_ => 0);
    }

    /** `tud_descriptor_string_cb`: clear the first 16 words, fill in the
        requested string and its header, and answer the buffer; `found` is
        false for the NULL answer. The language ID is ignored. */
    method GetString(index: Byte, langid: int, boardId: string) returns (found: bool)
      requires Valid() && BoardIdString(boardId)
      modifies words
      ensures found <==> Payload(index, boardId).Some?
      ensures found ==>
                var p := Payload(index, boardId).value;
                && words[0] == Header(|p|)
                && words[1..|p| + 1] == p
                // past the string the cleared words are 0 and the others
                // keep what an earlier request left there
                && (forall k :: |p| + 1 <= k < DESC_WORDS ==>
                      words[k] == if k < CLEARED_WORDS then 0 else old(words[k]))
      ensures !found ==>
                forall k :: 0 <= k < DESC_WORDS ==>
                  words[k] == if k < CLEARED_WORDS then 0 else old(words[k])
    {
      forall k | 0 <= k < CLEARED_WORDS {
        words[k] := 0;
      }
      var chrCount: int;
      if index == 0 {
        var lang := STRING_DESC_ARR[0].value;
        words[1] := lang[0] as int + 256 * lang[1] as int;
        chrCount := 1;
      } else if index == USB_SERIAL_NUMBER_INDEX {
        chrCount := |boardId|;
        CopyUnits(CodeUnits(boardId));
      } else {
        if index >= |STRING_DESC_ARR| {
          return false;
        }
        var str := STRING_DESC_ARR[index].value;
        chrCount := |str|;
        if chrCount > MAX_CHARS {
          chrCount := MAX_CHARS;
        }
        CopyUnits(CodeUnits(str[..chrCount]));
      }
      words[0] := Header(chrCount);
      found := true;
      ghost var p := Payload(index, boardId).value;
      assert |p| == chrCount;
      assert words[1..|p| + 1] == p by {
        forall k | 0 <= k < |p|
          ensures words[1..|p| + 1][k] == p[k]
        {
        }
      }
    }

    /** The copy loop `_desc_str[1 + i] = str[i]`: the code units go into the
        words after the header, and no other word changes. */
    method CopyUnits(units: seq<int>)
      requires Valid() && |units| < DESC_WORDS
      modifies words
      ensures forall k :: 1 <= k < |units| + 1 ==> words[k] == units[k - 1]
      ensures words[0] == old(words[0])
      ensures forall k :: |units| + 1 <= k < DESC_WORDS ==> words[k] == old(words[k])
    {
      for i := 0 to |units|
        invariant forall k :: 1 <= k < i + 1 ==> words[k] == units[k - 1]
        invariant words[0] == old(words[0])
        invariant forall k :: i + 1 <= k < DESC_WORDS ==> words[k] == old(words[k])
      {
        words[1 + i] := units[i];
      }
    }
  }

  /** Whatever the buffer held before, the host receives exactly the payload:
      the words a request does not write lie beyond `bLength`. */
  lemma {:induction false} ReceivedIsPayload(words: seq<int>, p: seq<int>)
    requires |words| == DESC_WORDS && |p| <= MAX_CHARS
    requires words[0] == Header(|p|) && words[1..|p| + 1] == p
    ensures 2 <= words[0] % 256 <= 2 * DESC_WORDS
    ensures Received(words) == p
  {
    assert (words[0] % 256) / 2 == |p| + 1;
  }

  /** The host decodes every table string back, up to its first 31
      characters. */
  lemma {:induction false} TableStringRoundTrip(index: Byte, boardId: string)
    requires BoardIdString(boardId)
    requires index != 0 && index != USB_SERIAL_NUMBER_INDEX && index < |STRING_DESC_ARR|
    ensures STRING_DESC_ARR[index].Some?
    ensures var s := STRING_DESC_ARR[index].value;
            var units := Payload(index, boardId).value;
            (forall i :: 0 <= i < |units| ==> IsCharCode(units[i])) &&
            Ascii(units) == Capped(s)
  {
    AsciiOfCodeUnits(Capped(STRING_DESC_ARR[index].value));
  }
}
