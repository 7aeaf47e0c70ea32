/**
 * The chat wire codec of `MessageMapper.kt`: a message travels as the UTF-8
 * bytes of `sender#message`, with no length prefix and no escaping.
 */
module MessageMapper {
  import opened Basics
  import opened Domain
  import Utf8

  const Delimiter: char := '#'
  const DelimiterByte: Byte := 0x23

  /** Kotlin's `substringBefore(d)`: the text before the first `d`, or all of `s` when there is none. */
  function SubstringBefore(s: string, d: char): (r: string)
    ensures d !in s ==> r == s
    ensures d in s ==> |r| < |s| && r == s[..|r|] && s[|r|] == d && d !in r
  {
    match IndexOf(s, d)
    case None => s
    case Some(i) => s[..i]
  }

  /** Kotlin's `substringAfter(d)`: the text after the first `d`, or all of `s` when there is none. */
  function SubstringAfter(s: string, d: char): (r: string)
    ensures d !in s ==> r == s
    ensures d in s ==> s == SubstringBefore(s, d) + [d] + r
  {
    match IndexOf(s, d)
    case None => s
    case Some(i) =>
      assert s == s[..i] + [d] + s[i + 1..];
      s[i + 1..]
  }

  /** `MessageModel.toByteArray`: the UTF-8 bytes of `sender#message`. */
  function ToByteArray(m: MessageModel): (r: seq<Byte>) {
    Utf8.Encode(m.sender + [Delimiter] + m.message)
  }

  /** The frame is the encoded sender, the single byte 0x23, then the encoded body. */
  lemma ToByteArrayLayout(m: MessageModel)
    ensures ToByteArray(m) == Utf8.Encode(m.sender) + [DelimiterByte] + Utf8.Encode(m.message)
  {
    Utf8.EncodeAppend(m.sender, [Delimiter]);
    Utf8.EncodeAppend(m.sender + [Delimiter], m.message);
  }

  /**
   * `ByteArray.toMessage(count, local)`: decodes bytes `[0, count)` and splits
   * the text at its first `#`. Kotlin's `decodeToString(endIndex = count)`
   * throws unless `0 <= count <= size`.
   */
  function ToMessage(buffer: seq<Byte>, count: int, local: bool): (r: MessageModel)
    requires 0 <= count <= |buffer|
    ensures r.local == local
    ensures var text := Utf8.Decode(buffer[..count]);
      if Delimiter in text then text == r.sender + [Delimiter] + r.message && Delimiter !in r.sender
      else r.sender == text && r.message == text
  {
    var data := Utf8.Decode(buffer[..count]);
    MessageModel(SubstringAfter(data, Delimiter), SubstringBefore(data, Delimiter), local)
  }

  /** Bytes at index `count` and beyond (stale data of a reused buffer) do not affect decoding. */
  lemma ToMessageReadsOnlyPrefix(a: seq<Byte>, b: seq<Byte>, count: int, local: bool)
    requires 0 <= count <= |a| && count <= |b|
    requires a[..count] == b[..count]
    ensures ToMessage(a, count, local) == ToMessage(b, count, local)
  {
  }

  /** The text before the first `#` of `s + [d] + t` is `s` when `s` has no `#`. */
  lemma SplitAtFirst(s: string, t: string)
    requires Delimiter !in s
    ensures SubstringBefore(s + [Delimiter] + t, Delimiter) == s
    ensures SubstringAfter(s + [Delimiter] + t, Delimiter) == t
  {
    var w := s + [Delimiter] + t;
    assert w[|s|] == Delimiter;
    assert forall k :: 0 <= k < |s| ==> w[k] == s[k];
    var b := SubstringBefore(w, Delimiter);
    assert b == s;
    assert w == s + [Delimiter] + SubstringAfter(w, Delimiter);
    assert w[|s| + 1..] == t;
  }

  /**
   * The round trip: decoding the whole encoding of `m` gives back its body
   * and sender, with the locality the receiver supplies, exactly when the
   * sender has no `#`. The body may contain `#`.
   */
  lemma RoundTrip(m: MessageModel, local: bool)
    ensures var bytes := ToByteArray(m);
      ToMessage(bytes, |bytes|, local) == MessageModel(m.message, m.sender, local)
      <==> Delimiter !in m.sender
  {
    var bytes := ToByteArray(m);
    var text := m.sender + [Delimiter] + m.message;
    Utf8.EncodeAppend(m.sender, [Delimiter]);
    Utf8.EncodeAppend(m.sender + [Delimiter], m.message);
    assert bytes == Utf8.Encode(text);
    assert bytes[..|bytes|] == bytes;
    Utf8.DecodeEncode(text);
    var r := ToMessage(bytes, |bytes|, local);
    assert text[|m.sender|] == Delimiter;
    if Delimiter !in m.sender {
      SplitAtFirst(m.sender, m.message);
    } else {
      var i :| 0 <= i < |m.sender| && m.sender[i] == Delimiter;
      assert text[i] == Delimiter;
      assert r.sender == text[..|r.sender|] && Delimiter !in r.sender;
      assert |r.sender| < |m.sender|;
    }
  }

  /** With no `#` on the wire, the sender and the body are both the whole text (and not an empty sender). */
  lemma NoDelimiterExample()
    ensures Utf8.Encode("hello") == [0x68, 0x65, 0x6C, 0x6C, 0x6F]
    ensures ToMessage(Utf8.Encode("hello"), 5, false) == MessageModel("hello", "hello", false)
  {
    var bytes := Utf8.Encode("hello");
    assert bytes == [0x68, 0x65, 0x6C, 0x6C, 0x6F];
    Utf8.DecodeEncode("hello");
    assert bytes[..5] == bytes;
    assert Delimiter !in "hello";
  }

  /** A received frame carries a `#` byte exactly when its decoded text carries `#`. */
  lemma DelimiterByteIffChar(s: string)
    ensures (DelimiterByte in Utf8.Encode(s)) <==> (Delimiter in s)
  {
    Utf8.EncodeHasByteIff(s, Delimiter);
  }

  /**
   * The first 0x23 byte of an encoded text sits right after the encoding of the
   * text before its first `#`, and the bytes after it encode the text after that
   * `#`: splitting the bytes and splitting the characters agree.
   */
  lemma DelimiterBytePosition(s: string)
    requires Delimiter in s
    ensures IndexOf(Utf8.Encode(s), DelimiterByte) == Some(|Utf8.Encode(SubstringBefore(s, Delimiter))|)
    ensures Utf8.Encode(s)[|Utf8.Encode(SubstringBefore(s, Delimiter))| + 1..] == Utf8.Encode(SubstringAfter(s, Delimiter))
  {
    var before, after := SubstringBefore(s, Delimiter), SubstringAfter(s, Delimiter);
    ToByteArrayLayout(MessageModel(after, before, false));
    var e := Utf8.Encode(s);
    assert e == Utf8.Encode(before) + [DelimiterByte] + Utf8.Encode(after);
    Utf8.EncodeHasByteIff(before, Delimiter);
    var n := |Utf8.Encode(before)|;
    assert e[..n] == Utf8.Encode(before);
    assert e[n] == DelimiterByte;
    match IndexOf(e, DelimiterByte)
    case None =>
    case Some(i) =>
      if i < n {
        assert e[i] in e[..n];
      } else if i > n {
        assert e[n] in e[..i];
      }
  }
}
