/** The EEPROM configuration block: a byte-cursor parser that fills the USB
    identity globals, and the page-chunked read that fetches the block.

    Layout of the block:
      bytes 0-3   the magic word "HOP!"
      bytes 4-5   USB vendor id, big-endian
      bytes 6-7   USB product id, big-endian
      bytes 8-9   device version (BCD), big-endian
      byte  10    logging level
      then three length-prefixed strings (serial number, product name,
      manufacturer); a length byte of 0xFF marks an erased, empty field;
      then optional custom strings in the same format. */
module Eeprom {
  import opened CTypes

  const EEPROM_PAGE_SIZE: nat := 64
  const MAGIC_WORD_SIZE: nat := 4
  /** "HOP!" as bytes. */
  const MAGIC_WORD: seq<Byte> := [0x48, 0x4F, 0x50, 0x21]
  /** Magic word, VID, PID, version and the logging level byte. */
  const HEADER_SIZE: nat := MAGIC_WORD_SIZE + 2 + 2 + 2 + 1
  /** A length byte read from an erased EEPROM cell. */
  const ERASED: Byte := 0xFF

  const SERIAL_SIZE: nat := 16
  const PRODUCT_SIZE: nat := 16
  const MANUFACTURER_SIZE: nat := 32
  /** Size of the scratch buffer each custom string is copied into. */
  const CUSTOM_STRING_SIZE: nat := 256

  /** The logging level the firmware starts with before the EEPROM is read. */
  const DEFAULT_LOGGING_LEVEL: Byte := 4

  /** `(hi << 8) | lo` for two bytes. */
  function BigEndian16(hi: Byte, lo: Byte): (r: int)
    ensures IsU16(r)
    ensures r / 256 == hi && r % 256 == lo
  {
    hi * 256 + lo
  }

  // ---------------------------------------------------------------------
  // C strings held in fixed-size byte buffers

  /** The buffer after `memcpy(buffer, s, |s|); buffer[|s|] = '\0'`. */
  function WithCString(buf: seq<Byte>, s: seq<Byte>): (r: seq<Byte>)
    requires |s| < |buf|
    ensures |r| == |buf|
    ensures r[..|s|] == s && r[|s|] == 0
    ensures forall i :: |s| < i < |buf| ==> r[i] == buf[i]
  {
    s + [0] + buf[|s| + 1..]
  }

  /** What `strlen`-based code sees in a buffer: the bytes before the first NUL. */
  function CStringOf(buf: seq<Byte>): (r: seq<Byte>)
    ensures |r| <= |buf| && r == buf[..|r|]
    ensures forall i :: 0 <= i < |r| ==> r[i] != 0
    ensures |r| < |buf| ==> buf[|r|] == 0
  {
    if buf == [] || buf[0] == 0 then [] else [buf[0]] + CStringOf(buf[1..])
  }

  predicate NoNul(s: seq<Byte>) { forall i :: 0 <= i < |s| ==> s[i] != 0 }

  /** A NUL at index k bounds the visible string by k characters. */
  lemma CStringBoundedByNul(buf: seq<Byte>, k: nat)
    requires k < |buf| && buf[k] == 0
    ensures |CStringOf(buf)| <= k
  {
    var r := CStringOf(buf);
    if |r| > k {
      assert r[k] == buf[k];
    }
  }

  /** Writing a NUL-free string into a buffer and reading it back as a C string
      gives the same string. */
  lemma CStringRoundTrip(buf: seq<Byte>, s: seq<Byte>)
    requires |s| < |buf| && NoNul(s)
    ensures CStringOf(WithCString(buf, s)) == s
  {
    var w := WithCString(buf, s);
    var r := CStringOf(w);
    CStringBoundedByNul(w, |s|);
    assert r == w[..|s|];
  }

  // ---------------------------------------------------------------------
  // extract_string

  /** Result of `extract_string`: its return code, where it leaves the cursor,
      and the string it stored in the buffer (None when the buffer is left
      untouched). */
  datatype Extracted = Extracted(rc: int, offset: nat, text: Option<seq<Byte>>)

  /** `extract_string(data, len, &offset, buffer, bufsize, ...)` with
      `len == |data|`. */
  function ExtractSpec(data: seq<Byte>, offset: nat, bufsize: nat): (r: Extracted)
    requires 1 <= bufsize
    ensures r.rc == 0 || r.rc == -1
    ensures r.rc == 0 <==> r.text.Some?
    // it succeeds exactly when the length byte exists and is either the
    // erased marker or announces a string that is present and fits
    ensures r.text.Some? <==>
              offset < |data| &&
              (data[offset] == ERASED ||
               (offset + 1 + data[offset] <= |data| && data[offset] < bufsize))
    // no length byte: the cursor does not move
    ensures offset >= |data| ==> r.offset == offset
    // an erased field is an empty string and consumes only its length byte
    ensures offset < |data| && data[offset] == ERASED ==>
              r.text == Some([]) && r.offset == offset + 1
    // a stored string is the announced slice, and the cursor skips it
    ensures r.text.Some? && data[offset] != ERASED ==>
              r.text.value == data[offset + 1 .. offset + 1 + data[offset]] &&
              r.offset == offset + 1 + data[offset]
    ensures r.text.Some? ==> |r.text.value| < bufsize && r.offset <= |data|
    // the length byte is consumed before the size checks fail
    ensures offset < |data| && r.text.None? ==> r.offset == offset + 1
  {
    if offset >= |data| then Extracted(-1, offset, None)
    else
      var n := data[offset];
      if n == ERASED then Extracted(0, offset + 1, Some([]))
      else if offset + 1 + n > |data| then Extracted(-1, offset + 1, None)
      else if n >= bufsize then Extracted(-1, offset + 1, None)
      else Extracted(0, offset + 1 + n, Some(data[offset + 1 .. offset + 1 + n]))
  }

  /** `extract_string`, writing into `buffer` and returning the new cursor. */
  method ExtractString(data: seq<Byte>, offset: nat, buffer: array<Byte>) returns (rc: int, next: nat)
    requires 1 <= buffer.Length
    modifies buffer
    ensures rc == ExtractSpec(data, offset, buffer.Length).rc
    ensures next == ExtractSpec(data, offset, buffer.Length).offset
    ensures var e := ExtractSpec(data, offset, buffer.Length);
            buffer[..] == if e.text.Some? then WithCString(old(buffer[..]), e.text.value)
                          else old(buffer[..])
  {
    next := offset;
    if next >= |data| {
      rc := -1;
      return;
    }
    var strLen := data[next];
    if strLen == ERASED {
      buffer[0] := 0;
      next := next + 1;
      rc := 0;
      assert buffer[..] == [0] + old(buffer[..])[1..];
      return;
    }
    next := next + 1;
    if next + strLen > |data| {
      rc := -1;
      return;
    }
    if strLen >= buffer.Length {
      rc := -1;
      return;
    }
    // the announced bytes go to the front of the buffer
    forall i | 0 <= i < strLen {
      buffer[i] := data[next + i];
    }
    buffer[strLen] := 0;
    assert buffer[..] == data[next .. next + strLen] + [0] + old(buffer[..])[strLen + 1..];
    next := next + strLen;
    rc := 0;
  }

  // ---------------------------------------------------------------------
  // parse_eeprom_data

  /** The configuration globals as values: the identity words, the logging
      level and the contents of the three string buffers. */
  datatype Settings = Settings(
    vid: int, pid: int, version: int, loggingLevel: Byte,
    serial: seq<Byte>, product: seq<Byte>, manufacturer: seq<Byte>)
  {
    ghost predicate WellSized() {
      |serial| == SERIAL_SIZE && |product| == PRODUCT_SIZE && |manufacturer| == MANUFACTURER_SIZE
    }
  }

  datatype ParseOutcome = ParseOutcome(rc: int, settings: Settings)

  predicate HeaderOk(data: seq<Byte>) {
    |data| >= HEADER_SIZE && data[..MAGIC_WORD_SIZE] == MAGIC_WORD
  }

  /** `parse_eeprom_data(data, |data|)` run against globals holding `before`. */
  function ParseSpec(data: seq<Byte>, before: Settings): (r: ParseOutcome)
    requires before.WellSized()
    ensures r.rc == 0 || r.rc == -1
    ensures r.settings.WellSized()
    // a short block or a wrong magic word is rejected before any global is written
    ensures !HeaderOk(data) ==> r == ParseOutcome(-1, before)
    // otherwise the header fields are written, whatever happens to the strings
    ensures HeaderOk(data) ==>
              r.settings.vid == BigEndian16(data[4], data[5]) &&
              r.settings.pid == BigEndian16(data[6], data[7]) &&
              r.settings.version == BigEndian16(data[8], data[9]) &&
              r.settings.loggingLevel == data[10]
    // on success every string fits its buffer with its terminating NUL
    ensures r.rc == 0 ==>
              |CStringOf(r.settings.serial)| < SERIAL_SIZE &&
              |CStringOf(r.settings.product)| < PRODUCT_SIZE &&
              |CStringOf(r.settings.manufacturer)| < MANUFACTURER_SIZE
  {
    if !HeaderOk(data) then ParseOutcome(-1, before)
    else
      var header := before.(vid := BigEndian16(data[4], data[5]),
                            pid := BigEndian16(data[6], data[7]),
                            version := BigEndian16(data[8], data[9]),
                            loggingLevel := data[10]);
      var e1 := ExtractSpec(data, HEADER_SIZE, SERIAL_SIZE);
      if e1.text.None? then ParseOutcome(-1, header)
      else
        var s1 := header.(serial := WithCString(header.serial, e1.text.value));
        CStringBoundedByNul(s1.serial, |e1.text.value|);
        var e2 := ExtractSpec(data, e1.offset, PRODUCT_SIZE);
        if e2.text.None? then ParseOutcome(-1, s1)
        else
          var s2 := s1.(product := WithCString(s1.product, e2.text.value));
          CStringBoundedByNul(s2.product, |e2.text.value|);
          var e3 := ExtractSpec(data, e2.offset, MANUFACTURER_SIZE);
          if e3.text.None? then ParseOutcome(-1, s2)
          else
            var s3 := s2.(manufacturer := WithCString(s2.manufacturer, e3.text.value));
            CStringBoundedByNul(s3.manufacturer, |e3.text.value|);
            ParseOutcome(0, s3)
  }

  /** After a good header, the three string fields decide the outcome: 0
      exactly when all three extract. Each string global is written exactly
      when its own field and every field before it extracted; a failure
      leaves the strings already written in place and the later ones as
      they were. */
  lemma ParseStringFields(data: seq<Byte>, before: Settings)
    requires before.WellSized() && HeaderOk(data)
    ensures var r := ParseSpec(data, before);
            var e1 := ExtractSpec(data, HEADER_SIZE, SERIAL_SIZE);
            var e2 := ExtractSpec(data, e1.offset, PRODUCT_SIZE);
            var e3 := ExtractSpec(data, e2.offset, MANUFACTURER_SIZE);
            && (r.rc == 0 <==> e1.text.Some? && e2.text.Some? && e3.text.Some?)
            && r.settings.serial ==
                 (if e1.text.Some? then WithCString(before.serial, e1.text.value)
                  else before.serial)
            && r.settings.product ==
                 (if e1.text.Some? && e2.text.Some? then WithCString(before.product, e2.text.value)
                  else before.product)
            && r.settings.manufacturer ==
                 (if e1.text.Some? && e2.text.Some? && e3.text.Some?
                  then WithCString(before.manufacturer, e3.text.value)
                  else before.manufacturer)
  {
  }

  /** The configuration globals of the firmware. */
  class UsbConfig {
    var vid: int
    var pid: int
    var version: int
    var loggingLevel: Byte
    const serial: array<Byte>
    const product: array<Byte>
    const manufacturer: array<Byte>

    ghost predicate Valid()
      reads this
    {
      serial.Length == SERIAL_SIZE && product.Length == PRODUCT_SIZE &&
      manufacturer.Length == MANUFACTURER_SIZE &&
      serial != product && serial != manufacturer && product != manufacturer
    }

    function Snapshot(): (s: Settings)
      reads this, serial, product, manufacturer
      requires Valid()
      ensures s.WellSized()
    {
      Settings(vid, pid, version, loggingLevel, serial[..], product[..], manufacturer[..])
    }

    /** The globals as the firmware starts: zero identity words and strings,
        and the default logging level. */
    constructor ()
      ensures Valid() && fresh(serial) && fresh(product) && fresh(manufacturer)
      ensures Snapshot() == Settings(0, 0, 0, DEFAULT_LOGGING_LEVEL,
                                     seq(SERIAL_SIZE, _ => 0), seq(PRODUCT_SIZE, _ => 0),
                                     seq(MANUFACTURER_SIZE, _ => 0))
    {
      vid, pid, version := 0, 0, 0;
      loggingLevel := DEFAULT_LOGGING_LEVEL;
      serial := new Byte[SERIAL_SIZE](_ => 0);
      product := new Byte[PRODUCT_SIZE](_ => 0);
      manufacturer := new Byte[MANUFACTURER_SIZE](_ => 0);
    }

    /** `parse_eeprom_data`: decode the block into the globals. */
    method Parse(data: seq<Byte>) returns (rc: int)
      requires Valid()
      modifies this, serial, product, manufacturer
      ensures Valid()
      ensures rc == ParseSpec(data, old(Snapshot())).rc
      ensures Snapshot() == ParseSpec(data, old(Snapshot())).settings
    {
      ghost var before := Snapshot();
      var offset: nat := 0;
      if |data| < HEADER_SIZE {
        return -1;
      }
      if data[..MAGIC_WORD_SIZE] != MAGIC_WORD {
        return -1;
      }
      offset := offset + MAGIC_WORD_SIZE;
      vid := BigEndian16(data[offset], data[offset + 1]);
      offset := offset + 2;
      pid := BigEndian16(data[offset], data[offset + 1]);
      offset := offset + 2;
      version := BigEndian16(data[offset], data[offset + 1]);
      offset := offset + 2;
      loggingLevel := data[offset];
      offset := offset + 1;
      ghost var header := before.(vid := vid, pid := pid, version := version, loggingLevel := loggingLevel);
      assert Snapshot() == header;
      assert HeaderOk(data) && offset == HEADER_SIZE;

      ghost var e1 := ExtractSpec(data, offset, SERIAL_SIZE);
      rc, offset := ExtractString(data, offset, serial);
      if rc != 0 {
        assert Snapshot() == header && e1.text.None?;
        assert ParseSpec(data, before) == ParseOutcome(-1, header);
        return -1;
      }
      ghost var s1 := header.(serial := WithCString(header.serial, e1.text.value));
      assert Snapshot() == s1 && offset == e1.offset;
      ghost var e2 := ExtractSpec(data, offset, PRODUCT_SIZE);
      rc, offset := ExtractString(data, offset, product);
      if rc != 0 {
        assert Snapshot() == s1 && e2.text.None?;
        assert ParseSpec(data, before) == ParseOutcome(-1, s1);
        return -1;
      }
      ghost var s2 := s1.(product := WithCString(s1.product, e2.text.value));
      assert Snapshot() == s2 && offset == e2.offset;
      ghost var e3 := ExtractSpec(data, offset, MANUFACTURER_SIZE);
      rc, offset := ExtractString(data, offset, manufacturer);
      if rc != 0 {
        assert Snapshot() == s2 && e3.text.None?;
        assert ParseSpec(data, before) == ParseOutcome(-1, s2);
        return -1;
      }
      ghost var s3 := s2.(manufacturer := WithCString(s2.manufacturer, e3.text.value));
      assert Snapshot() == s3;
      assert ParseSpec(data, before) == ParseOutcome(0, s3);

      // Any further custom strings are only logged; an erased length byte is
      // skipped and a string that runs past the end stops the scan.
      var customIndex := 0;
      while offset < |data|
        decreases |data| - offset
      {
        var customLen := data[offset];
        offset := offset + 1;
        if customLen == ERASED {
          continue;
        }
        if offset + customLen > |data| {
          break;
        }
        if customLen >= CUSTOM_STRING_SIZE {
          // a uint8_t length never reaches the 256-byte scratch buffer
          assert false;
        }
        offset := offset + customLen;
        customIndex := customIndex + 1;
      }
      return 0;
    }
  }

  // ---------------------------------------------------------------------
  // The image format, written the other way round

  /** A length-prefixed string field. */
  function EncodeField(s: seq<Byte>): (r: seq<Byte>)
    requires |s| < ERASED
    ensures |r| == |s| + 1 && r[0] == |s| && r[1..] == s
  {
    [|s| as Byte] + s
  }

  /** The configuration block that holds the given values. */
  function EncodeImage(vid: int, pid: int, version: int, level: Byte,
                       serial: seq<Byte>, product: seq<Byte>, manufacturer: seq<Byte>): (r: seq<Byte>)
    requires IsU16(vid) && IsU16(pid) && IsU16(version)
    requires |serial| < SERIAL_SIZE && |product| < PRODUCT_SIZE && |manufacturer| < MANUFACTURER_SIZE
    ensures HeaderOk(r)
  {
    MAGIC_WORD + [vid / 256, vid % 256, pid / 256, pid % 256, version / 256, version % 256, level]
      + EncodeField(serial) + EncodeField(product) + EncodeField(manufacturer)
  }

  /** A well-formed field that fits its buffer is extracted whole. */
  lemma ExtractField(data: seq<Byte>, offset: nat, s: seq<Byte>, bufsize: nat)
    requires 1 <= bufsize && |s| < bufsize && |s| < ERASED
    requires offset + 1 + |s| <= |data|
    requires data[offset] == |s| && data[offset + 1 .. offset + 1 + |s|] == s
    ensures ExtractSpec(data, offset, bufsize) == Extracted(0, offset + 1 + |s|, Some(s))
  {
  }

  /** The fixed header of an encoded block decodes to the encoded words. */
  lemma HeaderFields(data: seq<Byte>, vid: int, pid: int, version: int, level: Byte)
    requires IsU16(vid) && IsU16(pid) && IsU16(version)
    requires |data| >= HEADER_SIZE
    requires data[4..HEADER_SIZE] == [vid / 256, vid % 256, pid / 256, pid % 256, version / 256, version % 256, level]
    ensures BigEndian16(data[4], data[5]) == vid
    ensures BigEndian16(data[6], data[7]) == pid
    ensures BigEndian16(data[8], data[9]) == version
    ensures data[10] == level
  {
    assert data[4] == data[4..HEADER_SIZE][0];
    assert data[5] == data[4..HEADER_SIZE][1];
    assert data[6] == data[4..HEADER_SIZE][2];
    assert data[7] == data[4..HEADER_SIZE][3];
    assert data[8] == data[4..HEADER_SIZE][4];
    assert data[9] == data[4..HEADER_SIZE][5];
    assert data[10] == data[4..HEADER_SIZE][6];
  }

  /** In an encoded block, with arbitrary trailing bytes, the header holds
      the encoded words and each string field is extracted whole, the cursor
      moving from one field to the next. */
  lemma {:induction false} EncodedImageFields(vid: int, pid: int, version: int, level: Byte,
                                              serial: seq<Byte>, product: seq<Byte>, manufacturer: seq<Byte>,
                                              trailing: seq<Byte>)
    requires IsU16(vid) && IsU16(pid) && IsU16(version)
    requires |serial| < SERIAL_SIZE && |product| < PRODUCT_SIZE && |manufacturer| < MANUFACTURER_SIZE
    ensures var data := EncodeImage(vid, pid, version, level, serial, product, manufacturer) + trailing;
            var o2 := HEADER_SIZE + 1 + |serial|;
            var o3 := o2 + 1 + |product|;
            HeaderOk(data) &&
            BigEndian16(data[4], data[5]) == vid && BigEndian16(data[6], data[7]) == pid &&
            BigEndian16(data[8], data[9]) == version && data[10] == level &&
            ExtractSpec(data, HEADER_SIZE, SERIAL_SIZE) == Extracted(0, o2, Some(serial)) &&
            ExtractSpec(data, o2, PRODUCT_SIZE) == Extracted(0, o3, Some(product)) &&
            ExtractSpec(data, o3, MANUFACTURER_SIZE) == Extracted(0, o3 + 1 + |manufacturer|, Some(manufacturer))
  {
    var header := MAGIC_WORD + [vid / 256, vid % 256, pid / 256, pid % 256, version / 256, version % 256, level];
    var f1, f2, f3 := EncodeField(serial), EncodeField(product), EncodeField(manufacturer);
    var data := header + f1 + f2 + f3 + trailing;
    assert EncodeImage(vid, pid, version, level, serial, product, manufacturer) + trailing == data;
    var o1 := HEADER_SIZE;
    var o2 := o1 + |f1|;
    var o3 := o2 + |f2|;
    assert data[..o1] == header;
    assert data[o1..o2] == f1;
    assert data[o2..o3] == f2;
    assert data[o3..o3 + |f3|] == f3;
    assert data[..MAGIC_WORD_SIZE] == MAGIC_WORD by {
      assert data[..MAGIC_WORD_SIZE] == data[..o1][..MAGIC_WORD_SIZE];
    }
    HeaderFields(data, vid, pid, version, level) by {
      assert data[4..HEADER_SIZE] == data[..o1][4..];
    }
    ExtractField(data, o1, serial, SERIAL_SIZE) by {
      assert data[o1] == f1[0];
      assert data[o1 + 1 .. o2] == f1[1..];
    }
    ExtractField(data, o2, product, PRODUCT_SIZE) by {
      assert data[o2] == f2[0];
      assert data[o2 + 1 .. o3] == f2[1..];
    }
    ExtractField(data, o3, manufacturer, MANUFACTURER_SIZE) by {
      assert data[o3] == f3[0];
      assert data[o3 + 1 .. o3 + |f3|] == f3[1..];
    }
  }

  /** When the header is good and the three string fields are extracted one
      after the other, the block is accepted and each buffer holds its
      string. */
  lemma ParseSucceeds(data: seq<Byte>, before: Settings, o2: nat, o3: nat, o4: nat,
                      serial: seq<Byte>, product: seq<Byte>, manufacturer: seq<Byte>)
    requires before.WellSized() && HeaderOk(data)
    requires ExtractSpec(data, HEADER_SIZE, SERIAL_SIZE) == Extracted(0, o2, Some(serial))
    requires ExtractSpec(data, o2, PRODUCT_SIZE) == Extracted(0, o3, Some(product))
    requires ExtractSpec(data, o3, MANUFACTURER_SIZE) == Extracted(0, o4, Some(manufacturer))
    ensures ParseSpec(data, before)
              == ParseOutcome(0, before.(vid := BigEndian16(data[4], data[5]),
                                         pid := BigEndian16(data[6], data[7]),
                                         version := BigEndian16(data[8], data[9]),
                                         loggingLevel := data[10],
                                         serial := WithCString(before.serial, serial),
                                         product := WithCString(before.product, product),
                                         manufacturer := WithCString(before.manufacturer, manufacturer)))
  {
  }

  /** Decoding an encoded block, with arbitrary trailing bytes, succeeds and
      yields the encoded values, whatever the globals held before. */
  lemma {:induction false} ParseEncodedImage(vid: int, pid: int, version: int, level: Byte,
                                             serial: seq<Byte>, product: seq<Byte>, manufacturer: seq<Byte>,
                                             trailing: seq<Byte>, before: Settings)
    requires IsU16(vid) && IsU16(pid) && IsU16(version)
    requires |serial| < SERIAL_SIZE && |product| < PRODUCT_SIZE && |manufacturer| < MANUFACTURER_SIZE
    requires NoNul(serial) && NoNul(product) && NoNul(manufacturer)
    requires before.WellSized()
    ensures var r := ParseSpec(EncodeImage(vid, pid, version, level, serial, product, manufacturer) + trailing, before);
            r.rc == 0 &&
            r.settings.vid == vid && r.settings.pid == pid && r.settings.version == version &&
            r.settings.loggingLevel == level &&
            CStringOf(r.settings.serial) == serial &&
            CStringOf(r.settings.product) == product &&
            CStringOf(r.settings.manufacturer) == manufacturer
  {
    var data := EncodeImage(vid, pid, version, level, serial, product, manufacturer) + trailing;
    EncodedImageFields(vid, pid, version, level, serial, product, manufacturer, trailing);
    var o2 := HEADER_SIZE + 1 + |serial|;
    var o3 := o2 + 1 + |product|;
    ParseSucceeds(data, before, o2, o3, o3 + 1 + |manufacturer|, serial, product, manufacturer);
    CStringRoundTrip(before.serial, serial);
    CStringRoundTrip(before.product, product);
    CStringRoundTrip(before.manufacturer, manufacturer);
  }

  // ---------------------------------------------------------------------
  // eeprom_read

  /** One page read: the two address bytes written (high byte first), where
      in the caller's buffer the bytes land, and how many are read. */
  datatype Transfer = Transfer(addrHigh: Byte, addrLow: Byte, dataOffset: nat, count: nat)

  function TotalCount(ts: seq<Transfer>): nat
  {
    if ts == [] then 0 else TotalCount(ts[..|ts| - 1]) + ts[|ts| - 1].count
  }

  /** A page read of 1 to EEPROM_PAGE_SIZE bytes, sent the 16-bit EEPROM
      address (wrapping) that matches where its bytes land in the buffer. */
  predicate AddressedPage(t: Transfer, memAddr: int) {
    1 <= t.count <= EEPROM_PAGE_SIZE &&
    t.addrHigh * 256 + t.addrLow == (memAddr + t.dataOffset) % 0x1_0000
  }

  /** `next` continues a full page `prev` in the buffer. */
  predicate Continues(prev: Transfer, next: Transfer) {
    prev.count == EEPROM_PAGE_SIZE && next.dataOffset == prev.dataOffset + prev.count
  }

  lemma AddressAdvance(memAddr: int, done: int, n: int)
    ensures ((memAddr + done) % 0x1_0000 + n) % 0x1_0000 == (memAddr + done + n) % 0x1_0000
  {
  }

  /** The I2C transfers `eeprom_read(i2c, addr, memAddr, data, len)` issues. */
  method ReadChunks(memAddr: int, len: nat) returns (transfers: seq<Transfer>)
    requires IsU16(memAddr)
    ensures len == 0 <==> transfers == []
    // the pages add up to the request
    ensures TotalCount(transfers) == len
    ensures transfers != [] ==> transfers[0].dataOffset == 0
    // every page is addressed where its bytes land; all but the last are
    // full pages, each followed contiguously by the next
    ensures forall i :: 0 <= i < |transfers| ==> AddressedPage(transfers[i], memAddr)
    ensures forall i :: 0 <= i < |transfers| - 1 ==> Continues(transfers[i], transfers[i + 1])
  {
    transfers := [];
    var remaining: nat := len;
    var addr := memAddr;
    var done: nat := 0;
    while remaining > 0
      invariant done + remaining == len
      invariant TotalCount(transfers) == done
      invariant IsU16(addr) && addr == (memAddr + done) % 0x1_0000
      invariant transfers == [] <==> done == 0
      invariant transfers != [] ==> transfers[0].dataOffset == 0
      invariant transfers != [] ==>
                  transfers[|transfers| - 1].dataOffset + transfers[|transfers| - 1].count == done
      invariant transfers != [] && remaining > 0 ==> transfers[|transfers| - 1].count == EEPROM_PAGE_SIZE
      invariant forall i :: 0 <= i < |transfers| ==> AddressedPage(transfers[i], memAddr)
      invariant forall i :: 0 <= i < |transfers| - 1 ==> Continues(transfers[i], transfers[i + 1])
    {
      var readLen := if remaining > EEPROM_PAGE_SIZE then EEPROM_PAGE_SIZE else remaining;
      var t := Transfer(addr / 256, addr % 256, done, readLen);
      assert AddressedPage(t, memAddr);
      assert (transfers + [t])[..|transfers|] == transfers;
      transfers := transfers + [t];
      AddressAdvance(memAddr, done, readLen);
      done := done + readLen;
      addr := ToU16(addr + readLen);
      remaining := remaining - readLen;
    }
  }
}
