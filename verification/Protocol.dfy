/** Tag packing (clh/protocol.c): a 64-bit tag is
      | channel: 8 | sender: 24 | user tag: 32 |
    and every search compares tags under a 64-bit mask. */
module Protocol {

  const CHANNEL_MASK: bv64 := 0xFF00_0000_0000_0000
  const SENDER_ID_MASK: bv64 := 0x00FF_FFFF_0000_0000
  const ALL_ONES: bv64 := 0xFFFF_FFFF_FFFF_FFFF
  const MAX_CHANNELS: nat := 256

  /** C converts the signed 32-bit sender to 64 bits by copying its sign bit. */
  function SignExtend(x: bv32): bv64 {
    if x & 0x8000_0000 == 0 then x as bv64 else 0xFFFF_FFFF_0000_0000 | (x as bv64)
  }

  function EncodeTag(channel: bv32, senderId: bv32, senderTag: bv32): bv64 {
    ((channel as bv64) << 56) | (SignExtend(senderId) << 32) | (senderTag as bv64)
  }

  /** Field extraction, with the masks written out as in protocol.h. */
  function DecodeTag(tag: bv64): Fields {
    Fields(((tag & 0xFF00_0000_0000_0000) >> 56) as bv32,
           ((tag & 0x00FF_FFFF_0000_0000) >> 32) as bv32,
           (tag & 0xFFFF_FFFF) as bv32)
  }

  /** The three out-parameters of clh_decode_tag. */
  datatype Fields = Fields(channel: bv32, senderId: bv32, senderTag: bv32)

  /** Decoding undoes encoding for exactly the channels that fit 8 bits and
      the senders that fit 24 bits; a negative sender never survives. */
  lemma DecodeEncode(channel: bv32, senderId: bv32, senderTag: bv32)
    ensures DecodeTag(EncodeTag(channel, senderId, senderTag)) == Fields(channel, senderId, senderTag)
            <==> channel < 0x100 && senderId < 0x100_0000
  {
    var d := DecodeTag(EncodeTag(channel, senderId, senderTag));
    assert d.channel < 0x100 && d.senderId < 0x100_0000;
  }

  /** Encoding undoes decoding for every 64-bit word. */
  lemma EncodeDecode(tag: bv64)
    ensures var d := DecodeTag(tag); EncodeTag(d.channel, d.senderId, d.senderTag) == tag
  {
    assert SignExtend(DecodeTag(tag).senderId) == DecodeTag(tag).senderId as bv64;
  }

  /** What a receive or a probe asks for. */
  datatype Selector = Selector(tag: bv64, mask: bv64)

  /** The comparison in message_search (clh.c:172), which is also UCX's. */
  predicate TagMatches(full: bv64, s: Selector) {
    full & s.mask == s.tag & s.mask
  }

  /** clh_recv and clh_probe: any sender. */
  function AnySource(channel: bv32, tag: bv32, tagMask: bv32): Selector {
    Selector(EncodeTag(channel, 0, tag), CHANNEL_MASK | (tagMask as bv64))
  }

  /** clh_recv_from and clh_probe_source: one sender. */
  function FromSource(channel: bv32, source: bv32, tag: bv32, tagMask: bv32): Selector {
    Selector(EncodeTag(channel, source, tag), CHANNEL_MASK | SENDER_ID_MASK | (tagMask as bv64))
  }

  /** clh_request_recv: this very tag. */
  function Exactly(tag: bv64): Selector {
    Selector(tag, ALL_ONES)
  }

  lemma AnySourceSound(full: bv64, channel: bv32, tag: bv32, tagMask: bv32)
    requires channel < 0x100
    requires TagMatches(full, AnySource(channel, tag, tagMask))
    ensures DecodeTag(full).channel == channel && DecodeTag(full).senderTag & tagMask == tag & tagMask
  {
  }

  lemma AnySourceComplete(full: bv64, channel: bv32, tag: bv32, tagMask: bv32)
    requires channel < 0x100
    requires DecodeTag(full).channel == channel && DecodeTag(full).senderTag & tagMask == tag & tagMask
    ensures TagMatches(full, AnySource(channel, tag, tagMask))
  {
  }

  /** A masked match for clh_recv and clh_probe, in terms of the fields. */
  lemma AnySourceMeaning(full: bv64, channel: bv32, tag: bv32, tagMask: bv32)
    requires channel < 0x100
    ensures TagMatches(full, AnySource(channel, tag, tagMask))
            <==> DecodeTag(full).channel == channel && DecodeTag(full).senderTag & tagMask == tag & tagMask
  {
    if TagMatches(full, AnySource(channel, tag, tagMask)) {
      AnySourceSound(full, channel, tag, tagMask);
    } else if DecodeTag(full).channel == channel && DecodeTag(full).senderTag & tagMask == tag & tagMask {
      AnySourceComplete(full, channel, tag, tagMask);
    }
  }

  lemma FromSourceSound(full: bv64, channel: bv32, source: bv32, tag: bv32, tagMask: bv32)
    requires channel < 0x100 && source < 0x100_0000
    requires TagMatches(full, FromSource(channel, source, tag, tagMask))
    ensures DecodeTag(full).channel == channel && DecodeTag(full).senderId == source
            && DecodeTag(full).senderTag & tagMask == tag & tagMask
  {
  }

  lemma FromSourceComplete(full: bv64, channel: bv32, source: bv32, tag: bv32, tagMask: bv32)
    requires channel < 0x100 && source < 0x100_0000
    requires DecodeTag(full).channel == channel && DecodeTag(full).senderId == source
             && DecodeTag(full).senderTag & tagMask == tag & tagMask
    ensures TagMatches(full, FromSource(channel, source, tag, tagMask))
  {
  }

  /** A masked match for clh_recv_from and clh_probe_source, in terms of the fields. */
  lemma FromSourceMeaning(full: bv64, channel: bv32, source: bv32, tag: bv32, tagMask: bv32)
    requires channel < 0x100 && source < 0x100_0000
    ensures TagMatches(full, FromSource(channel, source, tag, tagMask))
            <==> (DecodeTag(full).channel == channel && DecodeTag(full).senderId == source
                  && DecodeTag(full).senderTag & tagMask == tag & tagMask)
  {
    if TagMatches(full, FromSource(channel, source, tag, tagMask)) {
      FromSourceSound(full, channel, source, tag, tagMask);
    } else if DecodeTag(full).channel == channel && DecodeTag(full).senderId == source
              && DecodeTag(full).senderTag & tagMask == tag & tagMask {
      FromSourceComplete(full, channel, source, tag, tagMask);
    }
  }

  lemma ExactlySound(full: bv64, tag: bv64)
    requires TagMatches(full, Exactly(tag))
    ensures full == tag
  {
  }

  lemma ExactlyComplete(full: bv64, tag: bv64)
    requires full == tag
    ensures TagMatches(full, Exactly(tag))
  {
  }

  /** The all-ones mask of clh_request_recv accepts one tag only. */
  lemma ExactlyMeaning(full: bv64, tag: bv64)
    ensures TagMatches(full, Exactly(tag))
            <==> full == tag
  {
    if TagMatches(full, Exactly(tag)) {
      ExactlySound(full, tag);
    } else if full == tag {
      ExactlyComplete(full, tag);
    }
  }

  /** Index of the per-channel list a tag belongs to. */
  function Chan(tag: bv64): (c: nat)
    ensures c < MAX_CHANNELS
  {
    DecodeTag(tag).channel as nat
  }

  /** The selector pins the channel, so only one list can hold a match. */
  predicate OneChannel(s: Selector) {
    s.mask & 0xFF00_0000_0000_0000 == 0xFF00_0000_0000_0000
  }

  lemma MatchesStayOnChannel(full: bv64, s: Selector)
    requires OneChannel(s) && TagMatches(full, s)
    ensures Chan(full) == Chan(s.tag)
  {
    assert DecodeTag(full).channel == DecodeTag(s.tag).channel;
  }

  /** Whatever the arguments, the masks of the interface cover the channel. */
  lemma AlwaysOneChannel(channel: bv32, source: bv32, tag: bv32, tagMask: bv32)
    ensures OneChannel(AnySource(channel, tag, tagMask))
    ensures OneChannel(FromSource(channel, source, tag, tagMask))
  {
  }

  /** Every selector the interface builds pins the channel it was given. */
  lemma SelectorsPinChannel(channel: bv32, source: bv32, tag: bv32, tagMask: bv32)
    requires channel < 0x100 && source < 0x100_0000
    ensures OneChannel(AnySource(channel, tag, tagMask))
    ensures OneChannel(FromSource(channel, source, tag, tagMask))
    ensures Chan(AnySource(channel, tag, tagMask).tag) == channel as nat
    ensures Chan(FromSource(channel, source, tag, tagMask).tag) == channel as nat
  {
    DecodeEncode(channel, 0, tag);
    DecodeEncode(channel, source, tag);
  }
}
