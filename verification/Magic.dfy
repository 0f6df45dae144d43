/** The Wake-on-LAN payload, the frame it is sent in, and its recogniser. */
module Magic {
  import opened Net
  import opened Wire

  const ETHERTYPE_WAKE_ON_LAN := 0x0842

  function Repeat(mac: Mac, n: nat): Bytes {
    if n == 0 then [] else Repeat(mac, n - 1) + mac
  }

  /** Six bytes 0xFF and sixteen repetitions of the address. */
  function WolPayload(mac: Mac): Bytes {
    [0xFF, 0xFF, 0xFF, 0xFF, 0xFF, 0xFF] + Repeat(mac, 16)
  }

  /** `create_wol_payload` */
  method CreateWolPayload(mac: Mac) returns (magic: Bytes)
    ensures magic == WolPayload(mac)
  {
    magic := [0xFF, 0xFF, 0xFF, 0xFF, 0xFF, 0xFF];
    for i := 0 to 16
      invariant magic == [0xFF, 0xFF, 0xFF, 0xFF, 0xFF, 0xFF] + Repeat(mac, i)
    {
      magic := magic + mac;
    }
  }

  predicate FoundAt(data: Bytes, pattern: Bytes, o: nat) {
    o + |pattern| <= |data| && data[o..o + |pattern|] == pattern
  }

  /** `is_magic_packet`: the payload occurs somewhere in the data. */
  predicate IsMagicPacket(data: Bytes, mac: Mac) {
    exists o: nat :: o <= |data| && FoundAt(data, WolPayload(mac), o)
  }

  /** The frame `wol_ethernet` sends. */
  function WolFrame(destination: Mac, source: Mac, mac: Mac): Bytes {
    BuildEthernetHeader(destination, source, ETHERTYPE_WAKE_ON_LAN) + WolPayload(mac)
  }

  lemma {:induction false} RepeatAt(mac: Mac, n: nat, i: nat)
    requires i < 6 * n
    ensures |Repeat(mac, n)| == 6 * n && Repeat(mac, n)[i] == mac[i % 6]
  {
    if i < 6 * (n - 1) {
      RepeatAt(mac, n - 1, i);
    } else {
      if n > 1 { RepeatAt(mac, n - 1, 0); }
      assert i % 6 == i - 6 * (n - 1);
    }
  }

  lemma PayloadAt(mac: Mac, i: nat)
    requires i < 102
    ensures |WolPayload(mac)| == 102
    ensures WolPayload(mac)[i] == if i < 6 then 0xFF else mac[i % 6]
  {
    RepeatAt(mac, 16, if i < 6 then 0 else i - 6);
  }

  lemma FrameAt(destination: Mac, source: Mac, mac: Mac, i: nat)
    requires 12 <= i < 116
    ensures |WolFrame(destination, source, mac)| == 116
    ensures WolFrame(destination, source, mac)[i] ==
            if i == 12 then 0x08 else if i == 13 then 0x42 else WolPayload(mac)[i - 14]
  {
    PayloadAt(mac, if i < 14 then 0 else i - 14);
    LinkParses(EthernetHeader(destination, source), ETHERTYPE_WAKE_ON_LAN, WolPayload(mac));
    var h := BuildEthernetHeader(destination, source, ETHERTYPE_WAKE_ON_LAN);
    assert h[12] == 0x08 && h[13] == 0x42;
  }

  lemma FoundByte(data: Bytes, mac: Mac, o: nat, i: nat)
    requires FoundAt(data, WolPayload(mac), o) && i < 102
    ensures o + 102 <= |data| && data[o + i] == if i < 6 then 0xFF else mac[i % 6]
  {
    PayloadAt(mac, i);
    assert data[o + i] == data[o..o + 102][i];
  }

  /** The ethertype bytes break the run of 0xFF and the period of six at every other alignment. */
  lemma OnlyBehindHeader(destination: Mac, source: Mac, mac: Mac, mac': Mac, o: nat)
    requires FoundAt(WolFrame(destination, source, mac), WolPayload(mac'), o)
    ensures o == 14
  {
    var frame := WolFrame(destination, source, mac);
    FrameAt(destination, source, mac, 12);
    FrameAt(destination, source, mac, 13);
    FrameAt(destination, source, mac, 18);
    PayloadAt(mac, 4);
    assert frame[12] == 0x08 && frame[13] == 0x42 && frame[18] == 0xFF;
    FoundByte(frame, mac', o, 0);
    if 7 <= o <= 12 { FoundByte(frame, mac', o, 12 - o); }
    if o <= 6 {
      assert (18 - o) % 6 == (12 - o) % 6;
      FoundByte(frame, mac', o, 12 - o);
      FoundByte(frame, mac', o, 18 - o);
    }
  }

  /** The frame goes to the given destination, comes from the given source and carries the Wake-on-LAN ethertype. */
  lemma FrameIsAddressed(destination: Mac, source: Mac, mac: Mac)
    ensures var frame := WolFrame(destination, source, mac);
      frame[..6] == destination && Ethernet(frame) == Ok(LinkLayer(14, source, 0x0842)) && frame[14..] == WolPayload(mac)
  {
    LinkParses(EthernetHeader(destination, source), ETHERTYPE_WAKE_ON_LAN, WolPayload(mac));
  }

  lemma PayloadInjective(mac: Mac, mac': Mac)
    requires WolPayload(mac) == WolPayload(mac')
    ensures mac == mac'
  {
    forall i | 0 <= i < 6 ensures mac[i] == mac'[i] {
      PayloadAt(mac, 6 + i);
      PayloadAt(mac', 6 + i);
    }
  }

  lemma PayloadIsFound(before: Bytes, mac: Mac, after: Bytes)
    ensures IsMagicPacket(before + WolPayload(mac) + after, mac)
  {
    assert FoundAt(before + WolPayload(mac) + after, WolPayload(mac), |before|);
  }

  /** The wake frame is a magic packet for exactly one address, whatever its destination and source. */
  lemma FrameRecognisedIff(destination: Mac, source: Mac, mac: Mac, mac': Mac)
    ensures IsMagicPacket(WolFrame(destination, source, mac), mac') <==> mac' == mac
  {
    var frame := WolFrame(destination, source, mac);
    if IsMagicPacket(frame, mac') {
      var o: nat :| o <= |frame| && FoundAt(frame, WolPayload(mac'), o);
      OnlyBehindHeader(destination, source, mac, mac', o);
      PayloadAt(mac, 0);
      PayloadAt(mac', 0);
      FrameAt(destination, source, mac, 12);
      forall i | 0 <= i < 102 ensures WolPayload(mac)[i] == WolPayload(mac')[i] {
        FrameAt(destination, source, mac, 14 + i);
        assert frame[14 + i] == frame[14..14 + 102][i];
      }
      PayloadInjective(mac, mac');
    }
    PayloadIsFound(BuildEthernetHeader(destination, source, ETHERTYPE_WAKE_ON_LAN), mac, []);
    assert frame == BuildEthernetHeader(destination, source, ETHERTYPE_WAKE_ON_LAN) + WolPayload(mac) + [];
  }

  /** The datagram of `wol_udp` is recognised for exactly one address. */
  lemma DatagramRecognisedIff(mac: Mac, mac': Mac)
    ensures IsMagicPacket(WolPayload(mac), mac') <==> mac' == mac
  {
    PayloadAt(mac, 0);
    PayloadAt(mac', 0);
    if IsMagicPacket(WolPayload(mac), mac') {
      var o: nat :| o <= |WolPayload(mac)| && FoundAt(WolPayload(mac), WolPayload(mac'), o);
      assert WolPayload(mac)[0..102] == WolPayload(mac);
      PayloadInjective(mac, mac');
    }
    PayloadIsFound([], mac, []);
    assert [] + WolPayload(mac) + [] == WolPayload(mac);
  }
}
