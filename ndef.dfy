/**
 * NDEF records as the NFC components see them: the records a tag delivers
 * to the reader (src/components/nfc/NFCReader.tsx), the record the writer
 * hands to the platform (src/components/nfc/NFCWriter.tsx), and the text
 * codec between them.
 */
module Ndef {

  newtype byte = x: int | 0 <= x < 256

  /** A record as read from a tag: its `recordType` and its `data` bytes. */
  datatype NdefRecord = NdefRecord(recordType: string, data: seq<byte>)

  /** A message read from a tag: its records, in tag order. */
  datatype NdefMessage = NdefMessage(records: seq<NdefRecord>)

  /** A record as a page passes it to `write`: a type and string data. */
  datatype RecordInit = RecordInit(recordType: string, data: string)

  /** The platform's text codec: `encode` turns the string data of a written
      record into the bytes on the tag (UTF-8), `decode` is
      `TextDecoder.decode`. Both are supplied, not modelled. */
  datatype TextCodec = TextCodec(encode: string -> seq<byte>, decode: seq<byte> -> string)

  /** The codec gives `s` back unchanged. */
  predicate RoundTrips(codec: TextCodec, s: string)
  {
    codec.decode(codec.encode(s)) == s
  }

  /** The record types the reader hands on. */
  predicate IsReadable(r: NdefRecord)
  {
    r.recordType == "url" || r.recordType == "text"
  }

  /** The strings the reader delivers for a sequence of records. */
  function DecodedPayloads(records: seq<NdefRecord>, decode: seq<byte> -> string): seq<string>
  {
    if records == [] then []
    else (if IsReadable(records[0]) then [decode(records[0].data)] else []) + DecodedPayloads(records[1..], decode)
  }

  /** One record yields exactly one string if it is a `url` or `text`
      record, and none otherwise. */
  lemma DecodedPayloadsOfOne(r: NdefRecord, decode: seq<byte> -> string)
    ensures DecodedPayloads([r], decode) == if IsReadable(r) then [decode(r.data)] else []
  {
    assert [r][1..] == [];
  }

  /** Delivery respects record order: the strings of `a + b` are those of
      `a` followed by those of `b`. */
  lemma {:induction false} DecodedPayloadsAppend(a: seq<NdefRecord>, b: seq<NdefRecord>, decode: seq<byte> -> string)
    ensures DecodedPayloads(a + b, decode) == DecodedPayloads(a, decode) + DecodedPayloads(b, decode)
  {
    if a == [] {
      assert a + b == b;
    } else {
      assert (a + b)[0] == a[0];
      assert (a + b)[1..] == a[1..] + b;
      DecodedPayloadsAppend(a[1..], b, decode);
    }
  }

  /** One string per readable record: the number delivered is the number of
      `url` and `text` records. */
  function CountReadable(records: seq<NdefRecord>): nat
  {
    if records == [] then 0
    else (if IsReadable(records[0]) then 1 else 0) + CountReadable(records[1..])
  }

  lemma {:induction false} DecodedPayloadsCount(records: seq<NdefRecord>, decode: seq<byte> -> string)
    ensures |DecodedPayloads(records, decode)| == CountReadable(records) <= |records|
  {
    if records != [] {
      DecodedPayloadsCount(records[1..], decode);
    }
  }

  /** The message the writer sends: one `url` record holding the text as is. */
  function UrlMessage(url: string): (m: seq<RecordInit>)
    ensures |m| == 1 && m[0].recordType == "url" && m[0].data == url
  {
    [RecordInit("url", url)]
  }

  /** What a tag holds after a successful write of `records`. */
  function Written(records: seq<RecordInit>, encode: string -> seq<byte>): (m: NdefMessage)
    ensures |m.records| == |records|
    ensures forall k :: 0 <= k < |records| ==>
              m.records[k] == NdefRecord(records[k].recordType, encode(records[k].data))
  {
    NdefMessage(seq(|records|, k requires 0 <= k < |records| => NdefRecord(records[k].recordType, encode(records[k].data))))
  }

  /** Encoding then decoding gives the text back: a tag written with
      `UrlMessage(url)` delivers exactly `url` to a reader. */
  lemma UrlMessageRoundTrip(url: string, codec: TextCodec)
    requires RoundTrips(codec, url)
    ensures DecodedPayloads(Written(UrlMessage(url), codec.encode).records, codec.decode) == [url]
  {
    var rs := Written(UrlMessage(url), codec.encode).records;
    assert rs == [NdefRecord("url", codec.encode(url))];
    DecodedPayloadsOfOne(rs[0], codec.decode);
  }
}
