/**
 IBUS receiver frames: the encoder, and the two byte-wise parsers that were written independently
 (the bring-up loop's and the formal receiver's).
 */
module Ibus {
  import opened Numbers
  import opened Protocol

  type Octet = x: int | 0 <= x < 256

  type Channels = c: seq<U16> | |c| == 14 witness seq(14, i => 0)

  // ---------- Frames ----------

  function Lo(v: U16): Octet { v % 256 }
  function Hi(v: U16): Octet { v / 256 }
  function Word(lo: Octet, hi: Octet): U16 { lo + 256 * hi }

  function Sum(s: seq<Octet>): nat
  {
    if s == [] then 0 else Sum(s[..|s| - 1]) + s[|s| - 1]
  }

  /** Two octets per channel, low octet first. */
  function Body(c: seq<U16>): (b: seq<Octet>)
    ensures |b| == 2 * |c|
    ensures forall i :: 0 <= i < |c| ==> b[2 * i] == Lo(c[i]) && b[2 * i + 1] == Hi(c[i])
  {
    if c == [] then [] else Body(c[..|c| - 1]) + [Lo(c[|c| - 1]), Hi(c[|c| - 1])]
  }

  lemma {:induction false} SumBound(s: seq<Octet>)
    ensures Sum(s) <= 255 * |s|
  {
    if s != [] { SumBound(s[..|s| - 1]); }
  }

  /** The complement of the octet sum of everything but the last two octets. */
  function ChecksumOf(f: seq<Octet>): U16
    requires |f| == 32
  {
    (0xFFFF - Sum(f[..30])) % 0x1_0000
  }

  ghost predicate IsFrame(f: seq<Octet>) {
    |f| == 32 && f[0] == 0x20 && f[1] == 0x40 && Word(f[30], f[31]) == ChecksumOf(f)
  }

  function ChannelsOf(f: seq<Octet>): Channels
    requires |f| == 32
  {
    seq(14, i requires 0 <= i < 14 => Word(f[2 + 2 * i], f[3 + 2 * i]))
  }

  function Head(c: Channels): (h: seq<Octet>)
    ensures |h| == 30
  {
    [0x20, 0x40] + Body(c)
  }

  function Encode(c: Channels): (f: seq<Octet>)
    ensures |f| == 32
  {
    Head(c) + [Lo(0xFFFF - Sum(Head(c)) % 0x1_0000), Hi(0xFFFF - Sum(Head(c)) % 0x1_0000)]
  }

  lemma Split(v: U16)
    ensures Word(Lo(v), Hi(v)) == v
  {
  }

  lemma Joined(lo: Octet, hi: Octet)
    ensures Lo(Word(lo, hi)) == lo && Hi(Word(lo, hi)) == hi
  {
  }

  lemma SmallSum(sum: nat)
    requires sum <= 255 * 30
    ensures 0xFFFF - sum % 0x1_0000 == (0xFFFF - sum) % 0x1_0000 == 0xFFFF - sum
    ensures Hi(0xFFFF - sum) > 0x20
  {
  }

  /** Thirty octets cannot make the 16-bit sum wrap. */
  lemma ChecksumSplit(f: seq<Octet>)
    requires |f| == 32
    ensures 0xFFFF - Sum(f[..30]) % 0x1_0000 == ChecksumOf(f) == 0xFFFF - Sum(f[..30])
    ensures Word(Lo(ChecksumOf(f)), Hi(ChecksumOf(f))) == ChecksumOf(f) && Hi(ChecksumOf(f)) > 0x20
  {
    SumBound(f[..30]);
    SmallSum(Sum(f[..30]));
    Split(ChecksumOf(f));
  }

  /** Encoding and decoding are inverse bijections between channel values and valid frames. */
  lemma EncodeDecode(c: Channels)
    ensures IsFrame(Encode(c)) && ChannelsOf(Encode(c)) == c
  {
    var f := Encode(c);
    assert f[..30] == Head(c);
    ChecksumSplit(f);
    forall i | 0 <= i < 14 ensures ChannelsOf(f)[i] == c[i] {
      assert f[2 + 2 * i] == Body(c)[2 * i] && f[3 + 2 * i] == Body(c)[2 * i + 1];
      Split(c[i]);
    }
  }

  lemma HalfIndex(k: nat)
    ensures k == 2 * (k / 2) || k == 2 * (k / 2) + 1
  {
  }

  /** A frame's first thirty octets are determined by its channels. */
  lemma HeadAt(c: Channels, f: seq<Octet>)
    requires |f| == 32 && f[0] == 0x20 && f[1] == 0x40
    requires forall i :: 0 <= i < 14 ==> f[2 + 2 * i] == Lo(c[i]) && f[3 + 2 * i] == Hi(c[i])
    ensures f[..30] == Head(c)
  {
    forall k | 0 <= k < 28 ensures f[2 + k] == Body(c)[k] {
      HalfIndex(k);
      assert Body(c)[2 * (k / 2)] == Lo(c[k / 2]) && Body(c)[2 * (k / 2) + 1] == Hi(c[k / 2]);
    }
    assert f[..30] == [f[0], f[1]] + f[2..30];
    assert f[2..30] == Body(c);
  }

  lemma DecodeEncode(f: seq<Octet>)
    requires IsFrame(f)
    ensures Encode(ChannelsOf(f)) == f
  {
    hide Sum, Body, Head;
    var c := ChannelsOf(f);
    forall i | 0 <= i < 14 ensures f[2 + 2 * i] == Lo(c[i]) && f[3 + 2 * i] == Hi(c[i]) {
      Joined(f[2 + 2 * i], f[3 + 2 * i]);
    }
    HeadAt(c, f);
    ChecksumSplit(f);
    Joined(f[30], f[31]);
    assert f == f[..30] + [f[30], f[31]];
  }

  // ---------- The two parsers, octet by octet ----------

  /** The bring-up parser checks the command octet at the end of a frame, the formal one at once. */
  datatype Parser = BringUp | Formal

  datatype Outcome = Nothing | Bad | Accepted(channels: Channels)

  predicate IsValid(f: seq<Octet>)
    requires |f| == 32
    ensures IsValid(f) <==> IsFrame(f)
  {
    f[0] == 0x20 && f[1] == 0x40 && Word(f[30], f[31]) == ChecksumOf(f)
  }

  function Push(parser: Parser, held: seq<Octet>, b: Octet): (seq<Octet>, Outcome)
    requires |held| < 32
    ensures |Push(parser, held, b).0| < 32
  {
    if held == [] && b != 0x20 then ([], Nothing)
    else if parser.Formal? && |held| == 1 && b != 0x40 then ([], Nothing)
    else if |held| < 31 then (held + [b], Nothing)
    else if IsValid(held + [b]) then ([], Accepted(ChannelsOf(held + [b])))
    else ([], Bad)
  }

  function Emitted(out: Outcome): seq<Channels> {
    if out.Accepted? then [out.channels] else []
  }

  /** All frames accepted from a stream, and the octets held afterwards. */
  function Feed(parser: Parser, held: seq<Octet>, stream: seq<Octet>): (seq<Octet>, seq<Channels>)
    requires |held| < 32
    ensures |Feed(parser, held, stream).0| < 32
    decreases |stream|
  {
    if stream == [] then (held, [])
    else
      var (next, out) := Push(parser, held, stream[0]);
      var (end, more) := Feed(parser, next, stream[1..]);
      (end, Emitted(out) + more)
  }

  lemma FeedNothing(parser: Parser, held: seq<Octet>)
    requires |held| < 32
    ensures Feed(parser, held, []) == (held, [])
  {
  }

  function EncodeAll(list: seq<Channels>): seq<Octet> {
    if list == [] then [] else Encode(list[0]) + EncodeAll(list[1..])
  }

  /** However a stream is cut into chunks, the parser ends up with the same frames. */
  lemma {:induction false} FeedInChunks(parser: Parser, held: seq<Octet>, a: seq<Octet>, b: seq<Octet>)
    requires |held| < 32
    ensures var (mid, first) := Feed(parser, held, a);
            var (end, second) := Feed(parser, mid, b);
            Feed(parser, held, a + b).0 == end && Feed(parser, held, a + b).1 == first + second
    decreases |a|
  {
    if a == [] {
      assert a + b == b;
    } else {
      assert (a + b)[1..] == a[1..] + b;
      var (next, out) := Push(parser, held, a[0]);
      FeedInChunks(parser, next, a[1..], b);
      var (mid, first) := Feed(parser, next, a[1..]);
      var (end, second) := Feed(parser, mid, b);
      assert (a + b)[0] == a[0];
      assert Emitted(out) + (first + second) == (Emitted(out) + first) + second;
    }
  }

  lemma FeedOne(parser: Parser, held: seq<Octet>, raw: seq<Octet>, k: nat)
    requires |held| < 32 && k < |raw|
    ensures var (mid, first) := Feed(parser, held, raw[..k]);
            var (next, out) := Push(parser, mid, raw[k]);
            Feed(parser, held, raw[..k + 1]).0 == next
            && Feed(parser, held, raw[..k + 1]).1 == first + Emitted(out)
  {
    assert raw[..k + 1] == raw[..k] + [raw[k]];
    FeedInChunks(parser, held, raw[..k], [raw[k]]);
    var mid := Feed(parser, held, raw[..k]).0;
    assert [raw[k]][1..] == [];
    assert Feed(parser, mid, [raw[k]]).1 == Emitted(Push(parser, mid, raw[k]).1) + [];
  }

  lemma {:induction false} FeedRestOfFrame(parser: Parser, f: seq<Octet>, k: nat)
    requires IsFrame(f) && k < 32
    ensures Feed(parser, f[..k], f[k..]).0 == [] && Feed(parser, f[..k], f[k..]).1 == [ChannelsOf(f)]
    decreases 32 - k
  {
    assert f[k..][0] == f[k] && f[k..][1..] == f[k + 1..];
    if k < 31 {
      assert f[..k] + [f[k]] == f[..k + 1];
      assert Push(parser, f[..k], f[k]) == (f[..k + 1], Nothing);
      FeedRestOfFrame(parser, f, k + 1);
    } else {
      assert f[..31] + [f[31]] == f;
      assert f[32..] == [];
      assert Push(parser, f[..31], f[31]) == ([], Accepted(ChannelsOf(f)));
      assert [ChannelsOf(f)] + [] == [ChannelsOf(f)];
    }
  }

  /** Feeding an idle parser the encodings of any list of channel values yields that list. */
  lemma {:induction false} RoundTrip(parser: Parser, list: seq<Channels>)
    ensures Feed(parser, [], EncodeAll(list)).0 == [] && Feed(parser, [], EncodeAll(list)).1 == list
  {
    if list != [] {
      var f := Encode(list[0]);
      EncodeDecode(list[0]);
      assert f[..0] == [] && f[0..] == f;
      FeedRestOfFrame(parser, f, 0);
      FeedInChunks(parser, [], f, EncodeAll(list[1..]));
      RoundTrip(parser, list[1..]);
      assert list == [list[0]] + list[1..];
    }
  }

  /** What a parser holds is always the end of what it has read. */
  ghost predicate HoldsSuffix(parser: Parser, seen: seq<Octet>, held: seq<Octet>) {
    && |held| <= |seen| && held == seen[|seen| - |held|..]
    && (held != [] ==> held[0] == 0x20)
    && (parser.Formal? && |held| > 1 ==> held[1] == 0x40)
  }

  lemma PushHoldsSuffix(parser: Parser, seen: seq<Octet>, held: seq<Octet>, b: Octet)
    requires |held| < 32 && HoldsSuffix(parser, seen, held)
    ensures var (next, out) := Push(parser, held, b);
            && HoldsSuffix(parser, seen + [b], next)
            && (out.Accepted? ==>
                  |seen| >= 31 && IsFrame((seen + [b])[|seen| - 31..])
                  && out.channels == ChannelsOf((seen + [b])[|seen| - 31..]))
  {
    assert (seen + [b])[|seen| - |held|..] == held + [b];
  }

  lemma {:induction false} FeedHoldsSuffix(parser: Parser, seen: seq<Octet>, held: seq<Octet>, stream: seq<Octet>)
    requires |held| < 32 && HoldsSuffix(parser, seen, held)
    ensures HoldsSuffix(parser, seen + stream, Feed(parser, held, stream).0)
    decreases |stream|
  {
    if stream == [] {
      assert seen + stream == seen;
    } else {
      PushHoldsSuffix(parser, seen, held, stream[0]);
      assert seen + stream == (seen + [stream[0]]) + stream[1..];
      FeedHoldsSuffix(parser, seen + [stream[0]], Push(parser, held, stream[0]).0, stream[1..]);
    }
  }

  /** On any input whatever, a parser accepts only when the last 32 octets it has read are a valid
      frame, and then it delivers exactly that frame's channels. */
  lemma AcceptsOnlyFrames(parser: Parser, stream: seq<Octet>, b: Octet)
    ensures var (held, _) := Feed(parser, [], stream);
            var (_, out) := Push(parser, held, b);
            out.Accepted? ==>
              |stream| >= 31 && IsFrame((stream + [b])[|stream| - 31..])
              && out.channels == ChannelsOf((stream + [b])[|stream| - 31..])
  {
    FeedHoldsSuffix(parser, [], [], stream);
    assert [] + stream == stream;
    PushHoldsSuffix(parser, stream, Feed(parser, [], stream).0, b);
  }

  /** Fewer than 32 octets yield nothing. */
  lemma {:induction false} ShortStream(parser: Parser, held: seq<Octet>, stream: seq<Octet>)
    requires |held| + |stream| < 32
    ensures Feed(parser, held, stream).1 == []
    decreases |stream|
  {
    if stream != [] {
      ShortStream(parser, Push(parser, held, stream[0]).0, stream[1..]);
    }
  }

  /** From idle the bring-up parser takes the 32 octets behind a header octet as one block. */
  lemma {:induction false} BlockFrom(f: seq<Octet>, k: nat)
    requires |f| == 32 && f[0] == 0x20 && k < 32
    ensures Feed(BringUp, f[..k], f[k..]).0 == []
    ensures Feed(BringUp, f[..k], f[k..]).1 == if IsFrame(f) then [ChannelsOf(f)] else []
    decreases 32 - k
  {
    assert f[k..][0] == f[k] && f[k..][1..] == f[k + 1..];
    if k < 31 {
      assert f[..k] + [f[k]] == f[..k + 1];
      BlockFrom(f, k + 1);
    } else {
      assert f[..31] + [f[31]] == f;
      assert f[32..] == [];
    }
  }

  /** A stray header octet in front of a frame makes both parsers lose that frame. */
  lemma StrayHeaderLosesFrame(parser: Parser, c: Channels)
    ensures Feed(parser, [], [0x20] + Encode(c)).1 == []
  {
    var f := Encode(c);
    var s := [0x20] + f;
    if parser.BringUp? {
      BlockFrom(s[..32], 0);
      assert s[..32][..0] == [] && s[..32][0..] == s[..32] && !IsFrame(s[..32]);
      FeedInChunks(BringUp, [], s[..32], s[32..]);
      assert s == s[..32] + s[32..];
      ShortStream(BringUp, [], s[32..]);
    } else {
      assert s[1..] == f && f[0] == 0x20;
      assert [] + [s[0]] == [s[0]];
      assert Push(Formal, [], s[0]).0 == [s[0]] && Push(Formal, [s[0]], f[0]) == ([], Nothing);
      ShortStream(Formal, [], f[1..]);
    }
  }

  /** One octet in front of a frame costs that frame exactly if it is the header octet. */
  lemma StrayOctetExactly(parser: Parser, b: Octet, c: Channels)
    ensures Feed(parser, [], [b] + Encode(c)).1 == if b == 0x20 then [] else [c]
  {
    if b == 0x20 {
      StrayHeaderLosesFrame(parser, c);
    } else {
      var f := Encode(c);
      EncodeDecode(c);
      FeedRestOfFrame(parser, f, 0);
      assert f[..0] == [] && f[0..] == f;
      assert ([b] + f)[0] == b && ([b] + f)[1..] == f;
      assert Push(parser, [], b) == ([], Nothing);
      assert [] + [c] == [c];
    }
  }

  lemma {:induction false} GrowsByOne(parser: Parser, held: seq<Octet>, s: seq<Octet>)
    requires |held| < 32
    ensures |Feed(parser, held, s).0| <= |held| + |s|
    decreases |s|
  {
    if s != [] {
      GrowsByOne(parser, Push(parser, held, s[0]).0, s[1..]);
    }
  }

  /** A parser in the middle of something else holds less than all of a frame's worth of octets afterwards. */
  lemma {:induction false} BusyEndsShort(parser: Parser, held: seq<Octet>, s: seq<Octet>)
    requires held != [] && |held| < 32 && |held| + |s| >= 32
    ensures |Feed(parser, held, s).0| < |s|
    decreases |s|
  {
    var next := Push(parser, held, s[0]).0;
    if next == [] {
      GrowsByOne(parser, next, s[1..]);
    } else {
      BusyEndsShort(parser, next, s[1..]);
    }
  }

  lemma {:induction false} FeedStartOfFrame(parser: Parser, f: seq<Octet>, k: nat)
    requires IsFrame(f) && k < 32
    ensures Feed(parser, [], f[..k]) == (f[..k], [])
  {
    if k > 0 {
      FeedStartOfFrame(parser, f, k - 1);
      FeedOne(parser, [], f, k - 1);
      assert f[..k - 1] + [f[k - 1]] == f[..k];
    }
  }

  /** After any octets whatever, the frame that comes next is accepted at its last octet exactly if the parser was idle
      when it began. */
  lemma FrameIsHeardExactly(parser: Parser, garbage: seq<Octet>, c: Channels)
    ensures var held, f := Feed(parser, [], garbage).0, Encode(c);
            Push(parser, Feed(parser, held, f[..31]).0, f[31]).1 == Accepted(c) <==> held == []
    ensures var held, f := Feed(parser, [], garbage).0, Encode(c);
            Push(parser, Feed(parser, held, f[..31]).0, f[31]).1.Accepted? <==> held == []
  {
    hide Feed;
    var held, f := Feed(parser, [], garbage).0, Encode(c);
    EncodeDecode(c);
    if held == [] {
      FeedStartOfFrame(parser, f, 31);
      assert f[..31] + [f[31]] == f;
    } else {
      BusyEndsShort(parser, held, f[..31]);
    }
  }

  /** The bring-up parser loses exactly that frame and is in step again for all that follow. */
  lemma StrayHeaderCostsOneFrame(c: Channels, list: seq<Channels>)
    ensures var (held, out) := Feed(BringUp, [], [0x20] + Encode(c) + EncodeAll(list));
            held == [] && out == list
  {
    var f := Encode(c);
    var s := [0x20] + f;
    StrayHeaderLosesFrame(BringUp, c);
    BlockFrom(s[..32], 0);
    assert s[..32][..0] == [] && s[..32][0..] == s[..32];
    FeedInChunks(BringUp, [], s[..32], s[32..]);
    assert s == s[..32] + s[32..] && s[32..] == [f[31]];
    assert f[..30] == Head(c);
    ChecksumSplit(f);
    assert Push(BringUp, [], f[31]) == ([], Nothing);
    FeedInChunks(BringUp, [], s, EncodeAll(list));
    RoundTrip(BringUp, list);
  }

  // ---------- The source's loops over fixed buffers ----------

  lemma SumStep(s: seq<Octet>, k: nat)
    requires k < |s|
    ensures Sum(s[..k + 1]) == Sum(s[..k]) + s[k]
  {
    assert s[..k + 1][..k] == s[..k];
  }

  /** The 16-bit running sum of the encoder and of the formal checksum. */
  method SumOctets(frame: array<Octet>) returns (sum: U16)
    requires frame.Length == 32
    ensures sum == Sum(frame[..30]) % 0x1_0000
  {
    sum := 0;
    ghost var octets := frame[..];
    for index := 0 to 30
      invariant sum == Sum(octets[..index]) % 0x1_0000
    {
      SumStep(octets, index);
      sum := (sum + frame[index]) % 0x1_0000;
    }
    assert octets[..30] == frame[..30];
  }

  method WriteHead(channels: Channels, frame: array<Octet>)
    requires frame.Length == 32
    modifies frame
    ensures frame[..30] == Head(channels)
  {
    frame[0] := 0x20;
    frame[1] := 0x40;
    for channel := 0 to 14
      invariant frame[0] == 0x20 && frame[1] == 0x40
      invariant forall i :: 0 <= i < channel ==>
        frame[2 + 2 * i] == Lo(channels[i]) && frame[3 + 2 * i] == Hi(channels[i])
    {
      frame[2 + 2 * channel] := Lo(channels[channel]);
      frame[3 + 2 * channel] := Hi(channels[channel]);
    }
    HeadAt(channels, frame[..]);
    assert frame[..30] == frame[..][..30];
  }

  method EncodeFrame(channels: Channels) returns (frame: array<Octet>)
    ensures fresh(frame) && frame[..] == Encode(channels)
  {
    frame := new Octet[32](i => 0);
    WriteHead(channels, frame);
    var sum := SumOctets(frame);
    var crc: U16 := 0xFFFF - sum;
    frame[30] := Lo(crc);
    frame[31] := Hi(crc);
    assert frame[..] == frame[..30] + [Lo(crc), Hi(crc)];
  }

  /** The parser of the bring-up loop, with its static frame buffer. */
  class BringUpParser {
    const frame: array<Octet>
    var index: nat

    ghost predicate Valid()
      reads this
    {
      frame.Length == 32 && index < 32
    }

    ghost function Held(): seq<Octet>
      requires Valid()
      reads this, frame
    {
      frame[..index]
    }

    constructor ()
      ensures Valid() && Held() == [] && fresh(frame)
    {
      frame := new Octet[32](i => 0);
      index := 0;
    }

    /** The checksum, counted down from all ones with 16-bit wrap-around. */
    method CountDown() returns (checksum: U16)
      requires Valid()
      ensures checksum == ChecksumOf(frame[..])
    {
      checksum := 0xFFFF;
      for i := 0 to 30
        invariant checksum == (0xFFFF - Sum(frame[..i])) % 0x1_0000
      {
        assert frame[..i + 1] == frame[..][..i + 1] && frame[..i] == frame[..][..i];
        SumStep(frame[..], i);
        checksum := (checksum - frame[i]) % 0x1_0000;
      }
      assert frame[..30] == frame[..][..30];
    }

    method ReadChannels(ch: array<U16>)
      requires Valid() && ch.Length == 14
      modifies ch
      ensures ch[..] == ChannelsOf(old(frame[..])) && frame[..] == old(frame[..])
    {
      ghost var f: seq<Octet> := frame[..];
      for i := 0 to 14
        invariant frame[..] == f && ch[..i] == ChannelsOf(f)[..i]
      {
        ch[i] := Word(frame[2 + i * 2], frame[3 + i * 2]);
      }
      assert ch[..] == ch[..14];
    }

    /** 1 for a frame, whose channels go to `ch`; -1 for a bad frame; 0 otherwise. */
    method ParseByte(b: Octet, ch: array<U16>) returns (ret: int)
      requires Valid() && ch.Length == 14
      modifies this, frame, ch
      ensures Valid()
      ensures Held() == Push(BringUp, old(Held()), b).0
      ensures match Push(BringUp, old(Held()), b).1
              case Nothing => ret == 0 && ch[..] == old(ch[..])
              case Bad => ret == -1 && ch[..] == old(ch[..])
              case Accepted(channels) => ret == 1 && ch[..] == channels
    {
      if index == 0 && b != 0x20 {
        return 0;
      }
      ghost var held := Held();
      frame[index] := b;
      index := index + 1;
      assert frame[..index] == held + [b];
      if index < 32 {
        return 0;
      }
      index := 0;
      assert frame[..] == held + [b];
      if frame[0] != 0x20 || frame[1] != 0x40 {
        return -1;
      }
      var checksum := CountDown();
      var expected: U16 := Word(frame[30], frame[31]);
      if checksum != expected {
        return -1;
      }
      ReadChannels(ch);
      return 1;
    }
  }

  // ---------- The formal receiver ----------

  function CenterDeadzone(v: U16, deadzone: nat): U16 {
    if Abs(v - 1500) < deadzone then 1500 else v
  }

  function Weigh(k: real, p: real): real { k * p }

  function Mix(p: real, q: real, k: real): real { Weigh(1.0 - k, p) + Weigh(k, q) }

  function Cube(c: real): real { c * c * c }

  /** The cubic blend on the normalized stick, from 0 to 1. */
  function Blend(normalized: real, expo: real): real {
    var c := (normalized - 0.5) * 2.0;
    Mix(c, Cube(c), expo) * 0.5 + 0.5
  }

  /** Rounding half away from zero, on values that are not negative. */
  function Round(v: real): int {
    (v + 0.5).Floor
  }

  function ThrottleExpo(v: U16, expo: real): U16 {
    var normalized := Clamp((v as real - 1000.0) / 1000.0, 0.0, 1.0);
    Limit(Round(1000.0 + Blend(normalized, expo) * 1000.0), 1000, 2000)
  }

  /** Deadzone on roll, pitch and yaw, expo on throttle; all other channels pass through. */
  function Shape(c: Channels, deadzone: nat, expo: real): Channels {
    c[0 := CenterDeadzone(c[0], deadzone)]
     [1 := CenterDeadzone(c[1], deadzone)]
     [3 := CenterDeadzone(c[3], deadzone)]
     [2 := ThrottleExpo(c[2], expo)]
  }

  datatype Sample = Sample(channels: Channels, linkOk: bool, failsafeSwitch: bool, timestampUs: nat)

  const NO_CHANNELS: Channels := [0, 0, 0, 0, 0, 0, 0, 0, 0, 0, 0, 0, 0, 0]

  const NO_SAMPLE := Sample(NO_CHANNELS, false, false, 0)

  const THRESHOLD := 1500

  function ReceivedSample(c: Channels, deadzone: nat, expo: real, nowUs: nat): Sample {
    var shaped := Shape(c, deadzone, expo);
    Sample(shaped, true, shaped[5] > THRESHOLD, nowUs)
  }

  /** What a sample becomes when the link is lost: sticks centred, throttle and arm switch low. */
  function LostSample(s: Sample): Sample {
    s.(channels := s.channels[2 := 1000][4 := 1000][0 := 1500][1 := 1500][3 := 1500],
       linkOk := false, failsafeSwitch := true)
  }

  /** Unsigned 64-bit time difference. */
  function Elapsed64(now: nat, since: nat): int {
    if now >= since then now - since else now - since + 0x1_0000_0000_0000_0000
  }

  function LastReceived(frames: seq<Channels>, deadzone: nat, expo: real, nowUs: nat): Sample
    requires frames != []
  {
    ReceivedSample(frames[|frames| - 1], deadzone, expo, nowUs)
  }

  /** What a poll without a new frame reports. */
  function WithoutFrame(last: Sample, live: bool): Sample {
    if live then last.(linkOk := true, failsafeSwitch := last.channels[5] > THRESHOLD) else LostSample(last)
  }

  function ReceiverSettings(config: FlightConfig): (nat, real) {
    (if config.deadzoneUs > 100 then 100 else config.deadzoneUs, Clamp(config.throttleExpo, 0.0, 0.95))
  }

  /** What the formal parser has let into its buffer. */
  ghost predicate HoldsHeader(held: seq<Octet>) {
    (|held| > 0 ==> held[0] == 0x20) && (|held| > 1 ==> held[1] == 0x40)
  }

  // ---------- The receiver, on values ----------

  type Held = h: seq<Octet> | |h| < 32

  /** What the receiver carries from poll to poll, apart from its settings. */
  datatype Rx = Rx(held: Held, lastSample: Sample, lastFrameUs: nat)

  const NO_RX := Rx([], NO_SAMPLE, 0)

  /** A frame was seen, and not longer ago than the timeout. */
  predicate Linked(lastFrameUs: nat, nowUs: nat, timeoutUs: nat) {
    lastFrameUs != 0 && Elapsed64(nowUs, lastFrameUs) <= timeoutUs
  }

  /** How many octets of the stream have been read when the last frame in it is accepted; 0 if none is. */
  function LastAt(parser: Parser, held: Held, stream: seq<Octet>): (n: nat)
    ensures n <= |stream|
  {
    if stream == [] then 0
    else
      var m := |stream| - 1;
      if Push(parser, Feed(parser, held, stream[..m]).0, stream[m]).1.Accepted? then m + 1
      else LastAt(parser, held, stream[..m])
  }

  lemma LastAtStep(parser: Parser, held: Held, raw: seq<Octet>, k: nat)
    requires k < |raw|
    ensures LastAt(parser, held, raw[..k + 1])
         == if Push(parser, Feed(parser, held, raw[..k]).0, raw[k]).1.Accepted? then k + 1
            else LastAt(parser, held, raw[..k])
  {
    assert raw[..k + 1][..k] == raw[..k];
  }

  lemma {:induction false} LastAtExactly(parser: Parser, held: Held, stream: seq<Octet>)
    ensures LastAt(parser, held, stream) > 0 <==> Feed(parser, held, stream).1 != []
    decreases |stream|
  {
    if stream != [] {
      var m := |stream| - 1;
      LastAtExactly(parser, held, stream[..m]);
      FeedOne(parser, held, stream, m);
      assert stream[..m + 1] == stream;
    }
  }

  /** The last frame accepted from a stream is the 32 octets up to where it was accepted. */
  lemma {:induction false} LastAtFrame(parser: Parser, stream: seq<Octet>)
    ensures (var p, frames := LastAt(parser, [], stream), Feed(parser, [], stream).1;
      p > 0 ==> 32 <= p && IsFrame(stream[p - 32..p]) && frames != []
                && frames[|frames| - 1] == ChannelsOf(stream[p - 32..p]))
    decreases |stream|
  {
    hide Feed, Push;
    if stream != [] {
      hide LastAt;
      var m := |stream| - 1;
      LastAtStep(parser, [], stream, m);
      assert stream[..m] + [stream[m]] == stream && stream[..m + 1] == stream;
      AcceptsOnlyFrames(parser, stream[..m], stream[m]);
      FeedOne(parser, [], stream, m);
      LastAtFrame(parser, stream[..m]);
      var p := LastAt(parser, [], stream[..m]);
      if p > 0 {
        assert stream[..m][p - 32..p] == stream[p - 32..p];
      }
      if m >= 31 {
        assert stream[m - 31..] == stream[m + 1 - 32..m + 1];
      }
    }
  }

  lemma {:induction false} LastAtInChunks(parser: Parser, stream: seq<Octet>, raw: seq<Octet>)
    ensures (var at := LastAt(parser, Feed(parser, [], stream).0, raw);
      LastAt(parser, [], stream + raw) == if at > 0 then |stream| + at else LastAt(parser, [], stream))
    decreases |raw|
  {
    hide Feed, Push;
    if raw == [] {
      assert stream + raw == stream;
    } else {
      var m := |raw| - 1;
      LastAtInChunks(parser, stream, raw[..m]);
      FeedInChunks(parser, [], stream, raw[..m]);
      LastAtStep(parser, [], stream + raw, |stream| + m);
      LastAtStep(parser, Feed(parser, [], stream).0, raw, m);
      assert raw[..m + 1] == raw && (stream + raw)[..|stream| + m + 1] == stream + raw;
      assert (stream + raw)[..|stream| + m] == stream + raw[..m];
    }
  }

  /** One octet. */
  function ReadOctet(rx: Rx, deadzone: nat, expo: real, b: Octet, nowUs: nat): Rx {
    var (held, out) := Push(Formal, rx.held, b);
    if out.Accepted? then Rx(held, ReceivedSample(out.channels, deadzone, expo, nowUs), nowUs)
    else rx.(held := held)
  }

  /** All octets of a poll, each with the clock at it. */
  function Scanned(rx: Rx, deadzone: nat, expo: real, raw: seq<Octet>, stamps: seq<nat>): Rx
    requires |stamps| == |raw|
  {
    if raw == [] then rx
    else
      var m := |raw| - 1;
      ReadOctet(Scanned(rx, deadzone, expo, raw[..m], stamps[..m]), deadzone, expo, raw[m], stamps[m])
  }

  lemma ScannedStep(rx: Rx, deadzone: nat, expo: real, raw: seq<Octet>, stamps: seq<nat>, k: nat)
    requires k < |raw| == |stamps|
    ensures Scanned(rx, deadzone, expo, raw[..k + 1], stamps[..k + 1])
         == ReadOctet(Scanned(rx, deadzone, expo, raw[..k], stamps[..k]), deadzone, expo, raw[k], stamps[k])
  {
    assert raw[..k + 1][..k] == raw[..k] && stamps[..k + 1][..k] == stamps[..k];
  }

  /** Scanning octet by octet is feeding the parser and keeping its last frame. */
  lemma {:induction false} ScannedIsFed(rx: Rx, deadzone: nat, expo: real, raw: seq<Octet>, stamps: seq<nat>)
    requires |stamps| == |raw|
    ensures (
      var end := Scanned(rx, deadzone, expo, raw, stamps);
      var fed, at := Feed(Formal, rx.held, raw), LastAt(Formal, rx.held, raw);
      && end.held == fed.0
      && (at == 0 ==> fed.1 == [] && end.lastSample == rx.lastSample && end.lastFrameUs == rx.lastFrameUs)
      && (at > 0 ==> fed.1 != [] && end.lastFrameUs == stamps[at - 1]
                     && end.lastSample == LastReceived(fed.1, deadzone, expo, stamps[at - 1])))
    decreases |raw|
  {
    if raw != [] {
      hide Push;
      var m := |raw| - 1;
      ScannedIsFed(rx, deadzone, expo, raw[..m], stamps[..m]);
      FeedOne(Formal, rx.held, raw, m);
      assert raw[..m + 1] == raw;
    }
  }

  /** What a poll leaves behind and reports: the last frame of the octets it reads, with the clock at its last octet,
      or what is known without a new frame. */
  function Polled(rx: Rx, deadzone: nat, expo: real, raw: seq<Octet>, stamps: seq<nat>, nowUs: nat): (Rx, Sample)
    requires |stamps| == |raw|
  {
    LastAtExactly(Formal, rx.held, raw);
    var (held, frames) := Feed(Formal, rx.held, raw);
    if frames != [] then
      var at := stamps[LastAt(Formal, rx.held, raw) - 1];
      var sample := LastReceived(frames, deadzone, expo, at);
      (Rx(held, sample, at), sample)
    else
      var live := Linked(rx.lastFrameUs, nowUs, 80000);
      var sample := WithoutFrame(rx.lastSample, live);
      (Rx(held, if live then rx.lastSample else sample, rx.lastFrameUs), sample)
  }

  /** A poll never reports a lost link without failsafe. */
  lemma LostIsFailsafe(rx: Rx, deadzone: nat, expo: real, raw: seq<Octet>, stamps: seq<nat>, nowUs: nat)
    requires |stamps| == |raw|
    ensures (var sample := Polled(rx, deadzone, expo, raw, stamps, nowUs).1; sample.linkOk || sample.failsafeSwitch)
  {
  }

  predicate Centred(c: Channels) { c[0] == c[1] == c[3] == 1500 && c[2] == c[4] == 1000 }

  /** A 64-bit difference. */
  lemma Elapsed64Exactly(now: nat, since: nat)
    requires now < 0x1_0000_0000_0000_0000 && since < 0x1_0000_0000_0000_0000
    ensures Elapsed64(now, since) == (now - since) % 0x1_0000_0000_0000_0000
  {
  }

  /** A poll that completes no frame reports the sample it has, with failsafe by channel 5, if its last frame came at
      most 80 ms ago. If not it reports, and from then on has, a lost link with failsafe, the sticks in the middle,
      throttle and arm switch low, and all else as it was. */
  lemma QuietPollExactly(rx: Rx, deadzone: nat, expo: real, raw: seq<Octet>, stamps: seq<nat>, nowUs: nat)
    requires |stamps| == |raw| && Feed(Formal, rx.held, raw).1 == []
    ensures (var (after, sample) := Polled(rx, deadzone, expo, raw, stamps, nowUs);
      && after.lastFrameUs == rx.lastFrameUs && sample.timestampUs == rx.lastSample.timestampUs
      && if rx.lastFrameUs != 0 && Elapsed64(nowUs, rx.lastFrameUs) <= 80_000 then
           && sample.linkOk && sample.channels == rx.lastSample.channels && after.lastSample == rx.lastSample
           && (sample.failsafeSwitch <==> sample.channels[5] > 1500)
         else
           && !sample.linkOk && sample.failsafeSwitch && Centred(sample.channels) && after.lastSample == sample
           && (forall k :: 5 <= k < 14 ==> sample.channels[k] == rx.lastSample.channels[k]))
  {
    hide Feed;
  }

  /** A poll that completes frames reports the last of them with the clock at its last octet, and keeps that sample. */
  lemma BusyPollExactly(rx: Rx, deadzone: nat, expo: real, raw: seq<Octet>, stamps: seq<nat>, nowUs: nat)
    requires |stamps| == |raw| && Feed(Formal, rx.held, raw).1 != []
    ensures LastAt(Formal, rx.held, raw) > 0
    ensures (var (after, sample) := Polled(rx, deadzone, expo, raw, stamps, nowUs);
      var frames, at := Feed(Formal, rx.held, raw).1, stamps[LastAt(Formal, rx.held, raw) - 1];
      var c := frames[|frames| - 1];
      && after.lastFrameUs == sample.timestampUs == at && after.lastSample == sample
      && sample.linkOk && sample.channels == Shape(c, deadzone, expo) && (sample.failsafeSwitch <==> c[5] > 1500))
  {
    hide Feed, LastAt;
    LastAtExactly(Formal, rx.held, raw);
  }

  // ---------- What a receiver knows of all it has read ----------

  /** The channels are those of the other, under some settings of the receiver. */
  ghost predicate Shapes(shaped: Channels, c: Channels) {
    exists deadzone: nat, expo: real :: shaped == Shape(c, deadzone, expo)
  }

  /** The sample has the channels of the frame that ends after p octets of the stream. */
  ghost predicate FromFrame(sample: Sample, stream: seq<Octet>, p: nat) {
    32 <= p <= |stream| && IsFrame(stream[p - 32..p]) && Shapes(sample.channels, ChannelsOf(stream[p - 32..p]))
  }

  /** The receiver started idle and has read this stream, with the clock at every octet: it knows the time of the
      last frame, and has the channels of that frame, unless it has put them back to the middle since. */
  ghost predicate HasHeard(rx: Rx, stream: seq<Octet>, stamps: seq<nat>) {
    var p := LastAt(Formal, [], stream);
    && |stamps| == |stream|
    && rx.held == Feed(Formal, [], stream).0
    && rx.lastFrameUs == (if p == 0 then 0 else stamps[p - 1])
    && (p > 0 ==> Centred(rx.lastSample.channels) || FromFrame(rx.lastSample, stream, p))
  }

  /** A frame stays where it is when more is read. */
  lemma FrameStays(sample: Sample, stream: seq<Octet>, raw: seq<Octet>, p: nat)
    requires FromFrame(sample, stream, p)
    ensures FromFrame(sample, stream + raw, p)
  {
    assert (stream + raw)[p - 32..p] == stream[p - 32..p];
  }

  lemma ShapesKeepSwitches(shaped: Channels, c: Channels)
    requires Shapes(shaped, c)
    ensures shaped[4] == c[4] && shaped[5] == c[5]
  {
  }

  /** A frame in what a poll reads is the last frame of all that has been read. */
  lemma NewFrameHeard(stream: seq<Octet>, raw: seq<Octet>, deadzone: nat, expo: real, nowUs: nat)
    requires LastAt(Formal, Feed(Formal, [], stream).0, raw) > 0
    ensures (var frames := Feed(Formal, Feed(Formal, [], stream).0, raw).1;
      && frames != []
      && FromFrame(LastReceived(frames, deadzone, expo, nowUs), stream + raw, LastAt(Formal, [], stream + raw)))
  {
    hide Feed, LastAt;
    var frames := Feed(Formal, Feed(Formal, [], stream).0, raw).1;
    LastAtExactly(Formal, Feed(Formal, [], stream).0, raw);
    LastAtInChunks(Formal, stream, raw);
    LastAtFrame(Formal, stream + raw);
    FeedInChunks(Formal, [], stream, raw);
    assert Shapes(LastReceived(frames, deadzone, expo, nowUs).channels, frames[|frames| - 1]);
  }

  /** Every poll keeps that knowledge. */
  lemma PollKeepsHearing(
      rx: Rx, stream: seq<Octet>, times: seq<nat>,
      deadzone: nat, expo: real, raw: seq<Octet>, stamps: seq<nat>, nowUs: nat)
    requires HasHeard(rx, stream, times) && |stamps| == |raw|
    ensures HasHeard(Polled(rx, deadzone, expo, raw, stamps, nowUs).0, stream + raw, times + stamps)
  {
    hide Feed, LastAt;
    LastAtInChunks(Formal, stream, raw);
    FeedInChunks(Formal, [], stream, raw);
    LastAtExactly(Formal, rx.held, raw);
    if LastAt(Formal, rx.held, raw) > 0 {
      NewFrameHeard(stream, raw, deadzone, expo, stamps[LastAt(Formal, rx.held, raw) - 1]);
    } else if FromFrame(rx.lastSample, stream, LastAt(Formal, [], stream)) {
      FrameStays(rx.lastSample, stream, raw, LastAt(Formal, [], stream));
    }
  }

  /** Every sample has the channels of the last frame of all that has been read, or they are back in the middle, as they
      are whenever it reports no link; and without failsafe its failsafe channel is low. */
  lemma PollShowsFrame(
      rx: Rx, stream: seq<Octet>, times: seq<nat>,
      deadzone: nat, expo: real, raw: seq<Octet>, stamps: seq<nat>, nowUs: nat)
    requires HasHeard(rx, stream, times) && |stamps| == |raw|
    ensures (var sample := Polled(rx, deadzone, expo, raw, stamps, nowUs).1;
      && (Centred(sample.channels) || FromFrame(sample, stream + raw, LastAt(Formal, [], stream + raw)))
      && (!sample.linkOk ==> Centred(sample.channels))
      && (!sample.failsafeSwitch ==> sample.channels[5] <= 1500))
  {
    hide Feed, LastAt;
    LastAtInChunks(Formal, stream, raw);
    LastAtExactly(Formal, rx.held, raw);
    if LastAt(Formal, rx.held, raw) > 0 {
      NewFrameHeard(stream, raw, deadzone, expo, stamps[LastAt(Formal, rx.held, raw) - 1]);
    } else if FromFrame(rx.lastSample, stream, LastAt(Formal, [], stream)) {
      FrameStays(rx.lastSample, stream, raw, LastAt(Formal, [], stream));
    }
  }

  lemma OneFrame(c: Channels)
    ensures Feed(Formal, [], Encode(c)).0 == [] && Feed(Formal, [], Encode(c)).1 == [c]
    ensures LastAt(Formal, [], Encode(c)) == 32
  {
    hide Feed, LastAt, Encode, IsFrame;
    RoundTrip(Formal, [c]);
    assert EncodeAll([c]) == Encode(c) by {
      assert [c][1..] == [];
    }
    LastAtExactly(Formal, [], Encode(c));
    LastAtFrame(Formal, Encode(c));
  }

  /** The poll that finds one whole frame delivers it, with the clock at its last octet. */
  lemma OneFrameIsHeard(c: Channels, deadzone: nat, expo: real, stamps: seq<nat>, nowUs: nat)
    requires |stamps| == 32
    ensures (var sample := ReceivedSample(c, deadzone, expo, stamps[31]);
      Polled(NO_RX, deadzone, expo, Encode(c), stamps, nowUs) == (Rx([], sample, stamps[31]), sample))
  {
    hide Feed, LastAt, Encode, Shape;
    OneFrame(c);
  }

  class Receiver {
    const frameBuffer: array<Octet>
    var frameIndex: nat
    var lastSample: Sample
    var lastFrameUs: nat
    var deadzoneUs: nat
    var throttleExpo: real

    ghost predicate Valid()
      reads this
    {
      frameBuffer.Length == 32 && frameIndex < 32
    }

    ghost function Held(): seq<Octet>
      requires Valid()
      reads this, frameBuffer
    {
      frameBuffer[..frameIndex]
    }

    ghost function Value(): Rx
      requires Valid()
      reads this, frameBuffer
    {
      Rx(Held(), lastSample, lastFrameUs)
    }

    constructor ()
      ensures Valid() && Value() == NO_RX && fresh(frameBuffer)
      ensures deadzoneUs == 15 && throttleExpo == 0.45
    {
      frameBuffer := new Octet[32](i => 0);
      frameIndex := 0;
      lastSample := NO_SAMPLE;
      lastFrameUs := 0;
      deadzoneUs, throttleExpo := 15, 0.45;
    }

    method Init()
      requires Valid()
      modifies this`frameIndex, this`lastFrameUs, this`lastSample
      ensures Valid() && Value() == NO_RX
    {
      frameIndex := 0;
      lastFrameUs := 0;
      lastSample := NO_SAMPLE;
    }

    method ApplyConfig(config: FlightConfig)
      modifies this`deadzoneUs, this`throttleExpo
      ensures (deadzoneUs, throttleExpo) == ReceiverSettings(config)
    {
      deadzoneUs := if config.deadzoneUs > 100 then 100 else config.deadzoneUs;
      throttleExpo := Clamp(config.throttleExpo, 0.0, 0.95);
    }

    method HasLink(nowUs: nat, timeoutUs: nat) returns (r: bool)
      ensures r == Linked(lastFrameUs, nowUs, timeoutUs)
    {
      if lastFrameUs == 0 {
        return false;
      }
      return Elapsed64(nowUs, lastFrameUs) <= timeoutUs;
    }

    method DecodeFrame(sample: Sample) returns (ok: bool, out: Sample)
      requires Valid()
      ensures ok <==> Word(frameBuffer[30], frameBuffer[31]) == ChecksumOf(frameBuffer[..])
      ensures out == if ok then sample.(channels := Shape(ChannelsOf(frameBuffer[..]), deadzoneUs, throttleExpo))
                     else sample
    {
      var sum := SumOctets(frameBuffer);
      assert frameBuffer[..30] == frameBuffer[..][..30];
      ChecksumSplit(frameBuffer[..]);
      var expected: U16 := 0xFFFF - sum;
      var received: U16 := Word(frameBuffer[30], frameBuffer[31]);
      if expected != received {
        return false, sample;
      }
      var channels: Channels := sample.channels;
      for channel := 0 to 14
        invariant channels[..channel] == ChannelsOf(frameBuffer[..])[..channel]
      {
        channels := channels[channel := Word(frameBuffer[2 + channel * 2], frameBuffer[3 + channel * 2])];
      }
      assert channels == channels[..14] == ChannelsOf(frameBuffer[..]);
      channels := channels[0 := CenterDeadzone(channels[0], deadzoneUs)];
      channels := channels[1 := CenterDeadzone(channels[1], deadzoneUs)];
      channels := channels[3 := CenterDeadzone(channels[3], deadzoneUs)];
      channels := channels[2 := ThrottleExpo(channels[2], throttleExpo)];
      return true, sample.(channels := channels);
    }

    method PushByte(b: Octet, sample: Sample, nowUs: nat) returns (ok: bool, out: Sample)
      requires Valid() && HoldsHeader(Held())
      modifies this, frameBuffer
      ensures Valid() && HoldsHeader(Held())
      ensures Value() == ReadOctet(old(Value()), deadzoneUs, throttleExpo, b, nowUs)
      ensures (deadzoneUs, throttleExpo) == old((deadzoneUs, throttleExpo))
      ensures ok == Push(Formal, old(Held()), b).1.Accepted?
      ensures out == if ok then lastSample else sample
      ensures !ok ==> lastSample == old(lastSample)
    {
      hide ChannelsOf, ChecksumOf, Shape, Word;
      if frameIndex == 0 {
        if b != 0x20 {
          return false, sample;
        }
        frameBuffer[0] := b;
        frameIndex := 1;
        return false, sample;
      }
      if frameIndex == 1 && b != 0x40 {
        frameIndex := 0;
        return false, sample;
      }
      ghost var held := Held();
      frameBuffer[frameIndex] := b;
      frameIndex := frameIndex + 1;
      assert frameBuffer[..frameIndex] == held + [b];
      if frameIndex < 32 {
        return false, sample;
      }
      frameIndex := 0;
      assert frameBuffer[..] == held + [b];
      ok, out := DecodeFrame(sample);
      if !ok {
        return;
      }
      lastFrameUs := nowUs;
      out := out.(timestampUs := nowUs, linkOk := true);
      out := out.(failsafeSwitch := out.channels[5] > THRESHOLD);
      lastSample := out;
    }

    /** The octet loop of a poll, with the clock at each octet. */
    method PushAll(raw: seq<Octet>, stamps: seq<nat>) returns (updated: bool, sample: Sample)
      requires Valid() && HoldsHeader(Held()) && |stamps| == |raw|
      modifies this, frameBuffer
      ensures Valid() && HoldsHeader(Held())
      ensures (deadzoneUs, throttleExpo) == old((deadzoneUs, throttleExpo))
      ensures Value() == Scanned(old(Value()), deadzoneUs, throttleExpo, raw, stamps)
      ensures updated <==> LastAt(Formal, old(Held()), raw) > 0
      ensures updated ==> sample == lastSample
    {
      hide Feed, Push, ReadOctet;
      updated, sample := false, NO_SAMPLE;
      for index := 0 to |raw|
        invariant Valid() && HoldsHeader(Held())
        invariant (deadzoneUs, throttleExpo) == old((deadzoneUs, throttleExpo))
        invariant Value() == Scanned(old(Value()), deadzoneUs, throttleExpo, raw[..index], stamps[..index])
        invariant updated <==> LastAt(Formal, old(Held()), raw[..index]) > 0
        invariant updated ==> sample == lastSample
      {
        hide Scanned;
        ScannedIsFed(old(Value()), deadzoneUs, throttleExpo, raw[..index], stamps[..index]);
        ScannedStep(old(Value()), deadzoneUs, throttleExpo, raw, stamps, index);
        LastAtStep(Formal, old(Held()), raw, index);
        var ok, out := PushByte(raw[index], sample, stamps[index]);
        if ok {
          updated := true;
          sample := lastSample;
        }
      }
      assert raw[..|raw|] == raw && stamps[..|stamps|] == stamps;
    }

    /** One poll over the octets the UART had; only its last frame is reported. */
    method Poll(raw: seq<Octet>, stamps: seq<nat>, nowUs: nat) returns (sample: Sample)
      requires Valid() && HoldsHeader(Held()) && |stamps| == |raw| <= 96
      modifies this, frameBuffer
      ensures Valid() && HoldsHeader(Held())
      ensures (deadzoneUs, throttleExpo) == old((deadzoneUs, throttleExpo))
      ensures Value() == Polled(old(Value()), deadzoneUs, throttleExpo, raw, stamps, nowUs).0
      ensures sample == Polled(old(Value()), deadzoneUs, throttleExpo, raw, stamps, nowUs).1
    {
      var frameUpdated;
      frameUpdated, sample := PushAll(raw, stamps);
      ScannedIsFed(old(Value()), deadzoneUs, throttleExpo, raw, stamps);
      if !frameUpdated {
        sample := lastSample;
        var link := HasLink(nowUs, 80000);
        sample := sample.(linkOk := link);
        sample := sample.(failsafeSwitch := sample.channels[5] > THRESHOLD);
        if !sample.linkOk {
          sample := LostSample(sample);
          lastSample := sample;
        }
      }
    }
  }

  // ---------- The throttle curve ----------

  lemma MixOfSame(p: real, k: real)
    ensures Mix(p, p, k) == p
  {
  }

  lemma BlendPoints(expo: real)
    ensures Blend(0.0, expo) == 0.0 && Blend(0.5, expo) == 0.5 && Blend(1.0, expo) == 1.0
  {
    assert Cube(-1.0) == -1.0 && Cube(0.0) == 0.0 && Cube(1.0) == 1.0;
    MixOfSame(-1.0, expo);
    MixOfSame(0.0, expo);
    MixOfSame(1.0, expo);
  }

  lemma Scales(k: real, a: real, b: real)
    requires k >= 0.0 && a <= b
    ensures k * a <= k * b
  {
    assert k * b - k * a == k * (b - a);
  }

  lemma Weighs(k: real, a: real, b: real)
    requires k >= 0.0 && a <= b
    ensures Weigh(k, a) <= Weigh(k, b)
  {
    Scales(k, a, b);
  }

  lemma MixMonotone(p: real, q: real, p': real, q': real, k: real)
    requires p <= p' && q <= q' && 0.0 <= k <= 1.0
    ensures Mix(p, q, k) <= Mix(p', q', k)
  {
    Weighs(1.0 - k, p, p');
    Weighs(k, q, q');
  }

  lemma TwoProducts(x: real, y: real, d: real)
    ensures (x + y) * d == x * d + y * d
  {
  }

  lemma MinusProduct(x: real, a: real, b: real)
    ensures x * (b - a) == x * b - x * a
  {
  }

  lemma SixProducts(x: real, y: real, z: real, a: real, b: real)
    ensures (x + y + z) * (b - a) == x * b + y * b + z * b - x * a - y * a - z * a
  {
    TwoProducts(x + y, z, b - a);
    TwoProducts(x, y, b - a);
    MinusProduct(x, a, b);
    MinusProduct(y, a, b);
    MinusProduct(z, a, b);
  }

  lemma CubeDifference(a: real, b: real)
    ensures Cube(b) - Cube(a) == (b * b + a * b + a * a) * (b - a)
  {
    var bb, ab, aa := b * b, a * b, a * a;
    SixProducts(bb, ab, aa, a, b);
    assert ab * b == bb * a;
    assert aa * b == ab * a;
    assert Cube(b) == bb * b;
    assert Cube(a) == aa * a;
  }

  lemma SquarePositive(a: real)
    ensures a * a >= 0.0
  {
  }

  lemma FormPositive(a: real, b: real)
    ensures b * b + a * b + a * a >= 0.0
  {
    assert 2.0 * (b * b + a * b + a * a) == (a + b) * (a + b) + a * a + b * b;
    SquarePositive(a + b);
    SquarePositive(a);
    SquarePositive(b);
  }

  lemma Cubes(a: real, b: real)
    requires a <= b
    ensures Cube(a) <= Cube(b)
  {
    CubeDifference(a, b);
    FormPositive(a, b);
    Scales(b * b + a * b + a * a, 0.0, b - a);
  }

  lemma BlendMonotone(x: real, y: real, expo: real)
    requires x <= y && 0.0 <= expo <= 1.0
    ensures Blend(x, expo) <= Blend(y, expo)
  {
    var a, b := (x - 0.5) * 2.0, (y - 0.5) * 2.0;
    Cubes(a, b);
    MixMonotone(a, Cube(a), b, Cube(b), expo);
  }

  /** The throttle curve never leaves its range, keeps the ends and the middle, and never turns back. */
  lemma ThrottleExpoCurve(v: U16, w: U16, expo: real)
    requires 0.0 <= expo <= 1.0
    ensures 1000 <= ThrottleExpo(v, expo) <= 2000
    ensures v <= 1000 ==> ThrottleExpo(v, expo) == 1000
    ensures v == 1500 ==> ThrottleExpo(v, expo) == 1500
    ensures v >= 2000 ==> ThrottleExpo(v, expo) == 2000
    ensures v <= w ==> ThrottleExpo(v, expo) <= ThrottleExpo(w, expo)
  {
    if v <= w {
      var x, y := (v as real - 1000.0) / 1000.0, (w as real - 1000.0) / 1000.0;
      BlendMonotone(Clamp(x, 0.0, 1.0), Clamp(y, 0.0, 1.0), expo);
    }
    BlendPoints(expo);
  }

  /** A stick and its cube, in the proportion of the expo. */
  function Curve(x: real, expo: real): real { (1.0 - expo) * x + expo * (x * x * x) }

  lemma BlendIsCurve(y: real, expo: real)
    ensures Blend(y, expo) == Curve((y - 0.5) * 2.0, expo) * 0.5 + 0.5
  {
  }

  /** Between its ends the throttle curve is that of the stick about the middle, rounded to the nearest. */
  lemma ThrottleExpoExactly(v: U16, expo: real)
    requires 1000 <= v <= 2000 && 0.0 <= expo <= 1.0
    ensures -0.5 < ThrottleExpo(v, expo) as real - (1500.0 + 500.0 * Curve((v as real - 1500.0) / 500.0, expo)) <= 0.5
  {
    var y := (v as real - 1000.0) / 1000.0;
    BlendIsCurve(y, expo);
    BlendPoints(expo);
    BlendMonotone(0.0, y, expo);
    BlendMonotone(y, 1.0, expo);
    hide Blend, Curve;
    assert (y - 0.5) * 2.0 == (v as real - 1500.0) / 500.0;
  }

  /** The receiver's channels are those of the frame, but for roll, pitch and yaw closer to the middle than the
      deadzone, which are put there, and the throttle, which is put through the curve. */
  lemma ShapeExactly(c: Channels, deadzone: nat, expo: real, k: nat)
    requires k < 14
    ensures (var v: int, stick := c[k], k == 0 || k == 1 || k == 3;
      Shape(c, deadzone, expo)[k]
        == if k == 2 then ThrottleExpo(v, expo) else if stick && Abs(v - 1500) < deadzone then 1500 else v)
  {
  }
}
