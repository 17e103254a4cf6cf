/**
 * Advertising packets: how a sensor node encodes a reading or a command, how a relaying
 * node recognises them in an advertisement, and how the mobile node reads them back.
 *
 * An advertisement is a list of typed fields, as in section 11 of the Bluetooth Core
 * Specification, Volume 3, Part C.
 */
module Packets {
  import opened Bytes
  import opened NodeNames

  const SENSOR_PACKET_LEN: nat := 12
  const COMMAND_PACKET_LEN: nat := 4

  const SENSOR_COMPANY_ID: u16 := 0xFFFF
  const MOBILE_COMPANY_ID: u16 := 0x0001

  const CMD_MEASURE: byte := 0x01
  const CMD_SLEEP: byte := 0x02

  const AD_FLAGS: byte := 0x01
  const AD_NAME_SHORTENED: byte := 0x08
  const AD_NAME_COMPLETE: byte := 0x09
  const AD_MANUFACTURER: byte := 0xFF

  datatype Reading = Reading(temp: i16, hum: u16, eco2: u16, tvoc: u16)
  datatype Sample = Sample(origin: byte, seqno: byte, reading: Reading)
  datatype Packet = SensorPacket(data: seq<byte>) | CommandPacket(data: seq<byte>)
  datatype AdField = AdField(kind: byte, data: seq<byte>)
  type Advert = seq<AdField>

  // ----- Encoding -----

  /** The twelve bytes of a sensor packet. */
  function SensorBytes(s: Sample): (data: seq<byte>)
    ensures |data| == SENSOR_PACKET_LEN
  {
    [LowByte(SENSOR_COMPANY_ID), HighByte(SENSOR_COMPANY_ID), s.origin, s.seqno,
     LowByte(AsU16(s.reading.temp)), HighByte(AsU16(s.reading.temp)),
     LowByte(s.reading.hum), HighByte(s.reading.hum),
     LowByte(s.reading.eco2), HighByte(s.reading.eco2),
     LowByte(s.reading.tvoc), HighByte(s.reading.tvoc)]
  }

  /** The four bytes of a command packet. */
  function CommandBytes(seqno: byte, cmd: byte): (data: seq<byte>)
    ensures |data| == COMMAND_PACKET_LEN
  {
    [LowByte(MOBILE_COMPANY_ID), HighByte(MOBILE_COMPANY_ID), seqno, cmd]
  }

  method PutLe16(x: u16, data: array<byte>, at: nat)
    requires at + 1 < data.Length
    modifies data
    ensures data[at] == LowByte(x) && data[at + 1] == HighByte(x)
    ensures forall i :: 0 <= i < data.Length && i != at && i != at + 1 ==> data[i] == old(data[i])
  {
    data[at] := LowByte(x);
    data[at + 1] := HighByte(x);
  }

  method EncodeSensorPacket(data: array<byte>, origin: byte, seqno: byte, temp: i16, hum: u16, eco2: u16, tvoc: u16)
    requires data.Length == SENSOR_PACKET_LEN
    modifies data
    ensures data[..] == SensorBytes(Sample(origin, seqno, Reading(temp, hum, eco2, tvoc)))
  {
    PutLe16(SENSOR_COMPANY_ID, data, 0);
    data[2] := origin;
    data[3] := seqno;
    PutLe16(AsU16(temp), data, 4);
    PutLe16(hum, data, 6);
    PutLe16(eco2, data, 8);
    PutLe16(tvoc, data, 10);
  }

  method EncodeCommandPacket(data: array<byte>, seqno: byte, cmd: byte)
    requires data.Length == SENSOR_PACKET_LEN
    modifies data
    ensures data[..COMMAND_PACKET_LEN] == CommandBytes(seqno, cmd)
    ensures data[COMMAND_PACKET_LEN..] == old(data[COMMAND_PACKET_LEN..])
  {
    PutLe16(MOBILE_COMPANY_ID, data, 0);
    data[2] := seqno;
    data[3] := cmd;
  }

  // ----- Decoding -----

  /** What a receiver reads out of twelve bytes of sensor data. */
  function DecodeSample(data: seq<byte>): Sample
    requires |data| == SENSOR_PACKET_LEN
  {
    Sample(data[2], data[3],
           Reading(AsI16(Le16(data[4], data[5])), Le16(data[6], data[7]),
                   Le16(data[8], data[9]), Le16(data[10], data[11])))
  }

  lemma SensorRoundTrip(s: Sample)
    ensures DecodeSample(SensorBytes(s)) == s
  {
    Le16Inverse(AsU16(s.reading.temp), 0, 0);
    Le16Inverse(s.reading.hum, 0, 0);
    Le16Inverse(s.reading.eco2, 0, 0);
    Le16Inverse(s.reading.tvoc, 0, 0);
  }

  /** The layout of a packet: identifier, origin, number, then four 16-bit fields, low byte first. */
  lemma SensorLayout(s: Sample)
    ensures var d: seq<int>, r := SensorBytes(s), s.reading;
      && d[0] == 0xFF && d[1] == 0xFF && d[2] == s.origin && d[3] == s.seqno
      && d[4] + 0x100 * d[5] == (if r.temp < 0 then r.temp + 0x1_0000 else r.temp)
      && d[6] + 0x100 * d[7] == r.hum && d[8] + 0x100 * d[9] == r.eco2 && d[10] + 0x100 * d[11] == r.tvoc
  {
    Le16Inverse(AsU16(s.reading.temp), 0, 0);
    Le16Inverse(s.reading.hum, 0, 0);
    Le16Inverse(s.reading.eco2, 0, 0);
    Le16Inverse(s.reading.tvoc, 0, 0);
  }

  lemma CommandLayout(seqno: byte, cmd: byte)
    ensures CommandBytes(seqno, cmd) == [0x01, 0x00, seqno, cmd]
  {
  }

  /** Conversely, data with the sensor company identifier is the encoding of what it decodes to. */
  lemma DecodedReencodes(data: seq<byte>)
    requires |data| == SENSOR_PACKET_LEN && Le16(data[0], data[1]) == SENSOR_COMPANY_ID
    ensures SensorBytes(DecodeSample(data)) == data
  {
    var s, again := DecodeSample(data), SensorBytes(DecodeSample(data));
    PairReencodes(data[0], data[1]);
    assert again[0] == data[0] && again[1] == data[1];
    assert again[2] == data[2] && again[3] == data[3];
    PairReencodes(data[4], data[5]);
    assert again[4] == data[4] && again[5] == data[5];
    PairReencodes(data[6], data[7]);
    assert again[6] == data[6] && again[7] == data[7];
    PairReencodes(data[8], data[9]);
    assert again[8] == data[8] && again[9] == data[9];
    PairReencodes(data[10], data[11]);
    assert again[10] == data[10] && again[11] == data[11];
  }

  lemma PairReencodes(low: byte, high: byte)
    ensures LowByte(Le16(low, high)) == low && HighByte(Le16(low, high)) == high
    ensures AsU16(AsI16(Le16(low, high))) == Le16(low, high)
  {
  }

  // ----- The relaying node's parser: the first usable manufacturer field wins -----

  function CompanyId(f: AdField): Option<u16> {
    if f.kind == AD_MANUFACTURER && |f.data| >= 2 then Some(Le16(f.data[0], f.data[1])) else None
  }

  predicate IsSensorField(f: AdField) {
    CompanyId(f) == Some(SENSOR_COMPANY_ID) && |f.data| == SENSOR_PACKET_LEN
  }

  predicate IsCommandField(f: AdField) {
    CompanyId(f) == Some(MOBILE_COMPANY_ID) && |f.data| == COMMAND_PACKET_LEN
  }

  predicate IsFloodField(f: AdField) {
    IsSensorField(f) || IsCommandField(f)
  }

  function FloodField(f: AdField): Packet
    requires IsFloodField(f)
  {
    if IsSensorField(f) then SensorPacket(f.data) else CommandPacket(f.data)
  }

  /** Some(p) when p comes from the first field that carries a flood packet. */
  predicate IsFirstPacket(ad: Advert, result: Option<Packet>) {
    match result
    case None => forall i :: 0 <= i < |ad| ==> !IsFloodField(ad[i])
    case Some(p) => exists i :: 0 <= i < |ad| && IsFloodField(ad[i]) && p == FloodField(ad[i])
                             && forall j :: 0 <= j < i ==> !IsFloodField(ad[j])
  }

  function FirstPacket(ad: Advert): (result: Option<Packet>)
    ensures IsFirstPacket(ad, result)
  {
    if ad == [] then None
    else if IsFloodField(ad[0]) then Some(FloodField(ad[0]))
    else
      var rest := FirstPacket(ad[1..]);
      assert rest.Some? ==>
        exists i :: 0 <= i < |ad[1..]| && IsFloodField(ad[1..][i]) && rest.value == FloodField(ad[1..][i])
                 && (forall j :: 0 <= j < i ==> !IsFloodField(ad[1..][j]))
                 && ad[i + 1] == ad[1..][i];
      rest
  }

  lemma FirstPacketUnique(ad: Advert, result: Option<Packet>)
    requires IsFirstPacket(ad, result)
    ensures result == FirstPacket(ad)
  {
  }

  method ParseFloodAdvert(ad: Advert) returns (result: Option<Packet>)
    ensures result == FirstPacket(ad)
  {
    for i := 0 to |ad|
      invariant forall j :: 0 <= j < i ==> !IsFloodField(ad[j])
    {
      var field := ad[i];
      if field.kind == AD_MANUFACTURER && |field.data| >= 2 {
        var companyId := Le16(field.data[0], field.data[1]);
        if companyId == SENSOR_COMPANY_ID && |field.data| == SENSOR_PACKET_LEN {
          result := Some(SensorPacket(field.data));
          FirstPacketUnique(ad, result);
          return;
        }
        if companyId == MOBILE_COMPANY_ID && |field.data| == COMMAND_PACKET_LEN {
          result := Some(CommandPacket(field.data));
          FirstPacketUnique(ad, result);
          return;
        }
      }
    }
    result := None;
    FirstPacketUnique(ad, result);
  }

  // ----- The mobile node's parser: every field is read, later ones overwrite -----

  /** The record the mobile node fills in while it reads an advertisement. */
  datatype Sniffed = Sniffed(nodeId: Name, sample: Sample, hasName: bool, hasData: bool, isCmd: bool)

  predicate IsNodeNameField(f: AdField) {
    (f.kind == AD_NAME_COMPLETE || f.kind == AD_NAME_SHORTENED) && NODE_PREFIX <= f.data
  }

  const EMPTY_SAMPLE := Sample(0, 0, Reading(0, 0, 0, 0))

  /** The fields of `ad` that carry sensor data, decoded in order. */
  function SensorSamples(ad: Advert): seq<Sample> {
    if ad == [] then []
    else
      var last := ad[|ad| - 1];
      var before := SensorSamples(ad[..|ad| - 1]);
      if IsSensorField(last) then before + [DecodeSample(last.data)] else before
  }

  /** Printing a list of names one over the other. */
  function PrintNames(buffer: Name, samples: seq<Sample>): (r: Name)
    requires |buffer| > 0
    ensures |r| == |buffer|
  {
    if samples == [] then buffer
    else PrintName(PrintNames(buffer, samples[..|samples| - 1]), samples[|samples| - 1].origin)
  }

  predicate HasNodeName(ad: Advert) {
    exists i :: 0 <= i < |ad| && IsNodeNameField(ad[i])
  }

  predicate HasCommand(ad: Advert) {
    exists i :: 0 <= i < |ad| && CompanyId(ad[i]) == Some(MOBILE_COMPANY_ID)
  }

  function Sniff(width: nat, ad: Advert): Sniffed
    requires width > 0
  {
    var samples := SensorSamples(ad);
    Sniffed(PrintNames(Zeros(width), samples),
            if samples == [] then EMPTY_SAMPLE else samples[|samples| - 1],
            HasNodeName(ad),
            samples != [],
            HasCommand(ad))
  }

  /** Whether the mobile node queues what it sniffed. */
  predicate Usable(s: Sniffed) {
    !s.isCmd && s.hasName && s.hasData
  }

  method ParseSnifferAdvert(width: nat, ad: Advert) returns (result: Sniffed)
    requires width > 0
    ensures result == Sniff(width, ad)
  {
    var nodeId, sample := Zeros(width), EMPTY_SAMPLE;
    var hasName, hasData, isCmd := false, false, false;
    for i := 0 to |ad|
      invariant |nodeId| == width
      invariant Sniffed(nodeId, sample, hasName, hasData, isCmd) == Sniff(width, ad[..i])
    {
      var field := ad[i];
      if field.kind == AD_NAME_COMPLETE || field.kind == AD_NAME_SHORTENED {
        if |field.data| >= 5 && field.data[..5] == NODE_PREFIX {
          hasName := true;
        }
      } else if field.kind == AD_MANUFACTURER && |field.data| >= 2 {
        var companyId := Le16(field.data[0], field.data[1]);
        if companyId == MOBILE_COMPANY_ID {
          isCmd := true;
        } else if companyId == SENSOR_COMPANY_ID && |field.data| == SENSOR_PACKET_LEN {
          sample := DecodeSample(field.data);
          nodeId := PrintName(nodeId, sample.origin);
          hasData := true;
        }
      }
      SniffStep(width, ad, i);
    }
    assert ad[..|ad|] == ad;
    result := Sniffed(nodeId, sample, hasName, hasData, isCmd);
  }

  /** How reading one more field changes the record. */
  function ReadField(s: Sniffed, f: AdField): Sniffed
    requires |s.nodeId| > 0
  {
    var fromSensor := IsSensorField(f);
    Sniffed(if fromSensor then PrintName(s.nodeId, DecodeSample(f.data).origin) else s.nodeId,
            if fromSensor then DecodeSample(f.data) else s.sample,
            s.hasName || IsNodeNameField(f),
            s.hasData || fromSensor,
            s.isCmd || CompanyId(f) == Some(MOBILE_COMPANY_ID))
  }

  lemma SniffStep(width: nat, ad: Advert, i: nat)
    requires width > 0 && i < |ad|
    ensures Sniff(width, ad[..i + 1]) == ReadField(Sniff(width, ad[..i]), ad[i])
  {
    var shorter, longer, field := ad[..i], ad[..i + 1], ad[i];
    SomeFieldStep(ad, i);
    SamplesStep(ad, i);
    if IsSensorField(field) {
      NamesStep(Zeros(width), SensorSamples(shorter), DecodeSample(field.data));
    }
  }

  lemma SomeFieldStep(ad: Advert, i: nat)
    requires i < |ad|
    ensures HasNodeName(ad[..i + 1]) == (HasNodeName(ad[..i]) || IsNodeNameField(ad[i]))
    ensures HasCommand(ad[..i + 1]) == (HasCommand(ad[..i]) || CompanyId(ad[i]) == Some(MOBILE_COMPANY_ID))
  {
    var shorter, longer := ad[..i], ad[..i + 1];
    assert forall j :: 0 <= j < i ==> longer[j] == shorter[j];
    assert longer[i] == ad[i];
  }

  lemma SamplesStep(ad: Advert, i: nat)
    requires i < |ad|
    ensures SensorSamples(ad[..i + 1])
         == if IsSensorField(ad[i]) then SensorSamples(ad[..i]) + [DecodeSample(ad[i].data)]
            else SensorSamples(ad[..i])
  {
    assert ad[..i + 1][..i] == ad[..i];
  }

  lemma NamesStep(buffer: Name, samples: seq<Sample>, next: Sample)
    requires |buffer| > 0
    ensures PrintNames(buffer, samples + [next]) == PrintName(PrintNames(buffer, samples), next.origin)
  {
    assert (samples + [next])[..|samples|] == samples;
  }

  // ----- What is put on air, and what is read from it -----

  /** The advertisement of a sensor node named `node` relaying packet p. */
  function NodeAdvert(node: byte, p: Packet): Advert {
    [AdField(AD_FLAGS, [0x06]), AdField(AD_MANUFACTURER, p.data), AdField(AD_NAME_COMPLETE, Text(node))]
  }

  /** The mobile node's command broadcast. */
  function BroadcastAdvert(seqno: byte, cmd: byte): Advert {
    [AdField(AD_FLAGS, [0x04]), AdField(AD_MANUFACTURER, CommandBytes(seqno, cmd))]
  }

  /** Packets with the right company identifier and length. */
  predicate WellFormed(p: Packet) {
    match p
    case SensorPacket(data) => |data| == SENSOR_PACKET_LEN && Le16(data[0], data[1]) == SENSOR_COMPANY_ID
    case CommandPacket(data) => |data| == COMMAND_PACKET_LEN && Le16(data[0], data[1]) == MOBILE_COMPANY_ID
  }

  /** A relaying node recovers, byte for byte, the packet its neighbour put on air. */
  lemma RelayReadsPacket(node: byte, p: Packet)
    requires WellFormed(p)
    ensures FirstPacket(NodeAdvert(node, p)) == Some(p)
  {
    var ad := NodeAdvert(node, p);
    assert !IsFloodField(ad[0]);
    assert IsFloodField(ad[1]) && FloodField(ad[1]) == p;
    FirstPacketUnique(ad, Some(p));
  }

  lemma RelayReadsBroadcast(seqno: byte, cmd: byte)
    ensures FirstPacket(BroadcastAdvert(seqno, cmd)) == Some(CommandPacket(CommandBytes(seqno, cmd)))
    ensures WellFormed(CommandPacket(CommandBytes(seqno, cmd)))
  {
    var ad := BroadcastAdvert(seqno, cmd);
    assert !IsFloodField(ad[0]);
    assert IsFloodField(ad[1]) && FloodField(ad[1]) == CommandPacket(CommandBytes(seqno, cmd));
    FirstPacketUnique(ad, Some(CommandPacket(CommandBytes(seqno, cmd))));
  }

  /**
   * The mobile node reads a sensor packet, relayed by any node, as exactly the sample its
   * origin encoded, under the origin's name; it ignores relayed commands.
   */
  lemma MobileReadsPacket(width: nat, node: byte, p: Packet)
    requires width > 0 && WellFormed(p)
    ensures p.SensorPacket? ==>
      && Usable(Sniff(width, NodeAdvert(node, p)))
      && Sniff(width, NodeAdvert(node, p)).sample == DecodeSample(p.data)
      && Sniff(width, NodeAdvert(node, p)).nodeId == NodeName(width, p.data[2])
    ensures p.CommandPacket? ==> !Usable(Sniff(width, NodeAdvert(node, p)))
  {
    SniffThreeFields(width, AdField(AD_FLAGS, [0x06]), AdField(AD_MANUFACTURER, p.data),
                     AdField(AD_NAME_COMPLETE, Text(node)));
  }

  lemma SniffThreeFields(width: nat, a: AdField, b: AdField, c: AdField)
    requires width > 0 && a.kind != AD_MANUFACTURER && c.kind != AD_MANUFACTURER
    ensures var s := Sniff(width, [a, b, c]);
      && s.isCmd == (CompanyId(b) == Some(MOBILE_COMPANY_ID))
      && (IsNodeNameField(c) ==> s.hasName)
      && (IsSensorField(b) ==> s.hasData && s.sample == DecodeSample(b.data) && s.nodeId == NodeName(width, b.data[2]))
  {
    var ad := [a, b, c];
    SniffStep(width, ad, 0);
    SniffStep(width, ad, 1);
    SniffStep(width, ad, 2);
    assert ad[..0] == [] && ad[..3] == ad;
    var blank := Sniff(width, []);
    assert blank.nodeId == Zeros(width) && !blank.isCmd;
    assert ReadField(blank, a).nodeId == Zeros(width);
  }

  // ----- One name printed over another -----

  /** Whether printing these names leaves a digit in the last place of a 9-byte name field. */
  predicate LeavesDigit(samples: seq<Sample>) {
    samples != [] &&
    var last := samples[|samples| - 1].origin;
    last >= 100 || (last < 10 && LeavesDigit(samples[..|samples| - 1]))
  }

  /** Printing over a 9-byte name gives the printed name, but for a digit left behind a short one. */
  lemma PrintOver(buffer: Name, origin: byte)
    requires |buffer| == MOBILE_NAME_LEN && buffer[8] == 0
    ensures var name := PrintName(buffer, origin);
      name == if origin < 10 then NodeName(MOBILE_NAME_LEN, origin)[7 := buffer[7]] else NodeName(MOBILE_NAME_LEN, origin)
  {
    var name, clean := PrintName(buffer, origin), NodeName(MOBILE_NAME_LEN, origin);
    assert buffer[8..] == [0] && Zeros(MOBILE_NAME_LEN)[8..] == [0];
    if origin < 10 {
      assert buffer[7..] == [buffer[7]] + [0] && Zeros(MOBILE_NAME_LEN)[7..] == [0, 0];
    }
  }

  lemma {:induction false} LastPlace(samples: seq<Sample>)
    ensures var name := PrintNames(Zeros(MOBILE_NAME_LEN), samples);
      name[8] == 0 && (name[7] != 0 <==> LeavesDigit(samples))
  {
    if samples != [] {
      var shorter, origin := samples[..|samples| - 1], samples[|samples| - 1].origin;
      LastPlace(shorter);
      PrintOver(PrintNames(Zeros(MOBILE_NAME_LEN), shorter), origin);
      NodeNameDigits(MOBILE_NAME_LEN, origin);
      NameFits(origin);
    }
  }

  /**
   * The name field is not cleared between two sensor fields of one advertisement. The name is
   * that of the sample that was read if and only if the sample's origin has more than one
   * digit, or no digit is left over from the fields before it; otherwise it is the name of
   * no node at all.
   */
  lemma {:induction false} SniffedNameIff(ad: Advert)
    requires SensorSamples(ad) != []
    ensures var s, samples := Sniff(MOBILE_NAME_LEN, ad), SensorSamples(ad);
      && (s.nodeId == NodeName(MOBILE_NAME_LEN, s.sample.origin)
          <==> s.sample.origin >= 10 || !LeavesDigit(samples[..|samples| - 1]))
      && (s.nodeId != NodeName(MOBILE_NAME_LEN, s.sample.origin) ==>
          forall o: byte :: s.nodeId != NodeName(MOBILE_NAME_LEN, o))
  {
    var samples := SensorSamples(ad);
    var origin := samples[|samples| - 1].origin;
    var buffer := PrintNames(Zeros(MOBILE_NAME_LEN), samples[..|samples| - 1]);
    LastPlace(samples[..|samples| - 1]);
    PrintOver(buffer, origin);
    NodeNameDigits(MOBILE_NAME_LEN, origin);
    forall o: byte | PrintName(buffer, origin) == NodeName(MOBILE_NAME_LEN, o)
      ensures o == origin
    {
      NodeNameDigits(MOBILE_NAME_LEN, o);
      if origin < 10 {
        assert NodeName(MOBILE_NAME_LEN, o)[6] == 0;
        assert NodeName(MOBILE_NAME_LEN, o)[7] == 0;
      }
      NamesAgree(MOBILE_NAME_LEN, o, origin);
    }
  }

  lemma TwoSensorFields(a: AdField, b: AdField, c: AdField)
    requires IsSensorField(a) && IsSensorField(b) && IsNodeNameField(c)
    ensures SensorSamples([a, b, c]) == [DecodeSample(a.data), DecodeSample(b.data)]
    ensures HasNodeName([a, b, c]) && !HasCommand([a, b, c])
  {
    var ad := [a, b, c];
    assert ad[..3] == ad && ad[..0] == [];
    SamplesStep(ad, 0);
    SamplesStep(ad, 1);
    SamplesStep(ad, 2);
    assert IsNodeNameField(ad[2]);
  }

  /** Such a name reaches the mobile node's queue if two sensor fields and a node name share one advertisement. */
  lemma AliasedName(a: AdField, b: AdField, c: AdField)
    requires IsSensorField(a) && IsSensorField(b) && IsNodeNameField(c)
    requires DecodeSample(a.data).origin >= 100 && DecodeSample(b.data).origin < 10
    ensures
      var s := Sniff(MOBILE_NAME_LEN, [a, b, c]);
      && Usable(s) && s.sample == DecodeSample(b.data)
      && forall o: byte :: s.nodeId != NodeName(MOBILE_NAME_LEN, o)
  {
    TwoSensorFields(a, b, c);
    var long := DecodeSample(a.data);
    assert [long, DecodeSample(b.data)][..1] == [long] && LeavesDigit([long]);
    SniffedNameIff([a, b, c]);
  }

  // ----- Legacy advertisements -----

  const LEGACY_ADVERT_MAX: nat := 31

  /** The bytes an advertisement takes on air: each field has a length and a type byte. */
  function AdvertSize(ad: Advert): nat {
    if ad == [] then 0 else AdvertSize(ad[..|ad| - 1]) + 2 + |ad[|ad| - 1].data|
  }

  lemma {:induction false} SensorFieldsTakeRoom(ad: Advert)
    ensures AdvertSize(ad) >= 14 * |SensorSamples(ad)| + if HasNodeName(ad) then 7 else 0
  {
    if ad != [] {
      var n := |ad| - 1;
      SensorFieldsTakeRoom(ad[..n]);
      assert ad[..n + 1] == ad;
      SomeFieldStep(ad, n);
    }
  }

  /**
   * The controllers of this system advertise and scan in legacy mode, with at most 31 bytes.
   * There a usable advertisement has a single sensor field, and its name is the name of the
   * origin of the sample that was read.
   */
  lemma LegacyNamesAreTrue(width: nat, ad: Advert)
    requires width > 0 && AdvertSize(ad) <= LEGACY_ADVERT_MAX && Usable(Sniff(width, ad))
    ensures SensorSamples(ad) == [Sniff(width, ad).sample]
    ensures Sniff(width, ad).nodeId == NodeName(width, Sniff(width, ad).sample.origin)
  {
    SensorFieldsTakeRoom(ad);
    var samples := SensorSamples(ad);
    assert samples == [samples[0]] && samples[..0] == [];
    assert PrintNames(Zeros(width), samples[..0]) == Zeros(width);
  }

  lemma ThreeFieldsSize(a: AdField, b: AdField, c: AdField)
    ensures AdvertSize([a, b, c]) == 6 + |a.data| + |b.data| + |c.data|
  {
    assert [a, b, c][..2] == [a, b] && [a, b][..1] == [a] && [a][..0] == [];
    assert AdvertSize([a]) == 2 + |a.data|;
    assert AdvertSize([a, b]) == 4 + |a.data| + |b.data|;
  }

  /** What a node puts on air is a legacy advertisement. */
  lemma NodeAdvertIsLegacy(node: byte, p: Packet)
    requires WellFormed(p)
    ensures AdvertSize(NodeAdvert(node, p)) <= LEGACY_ADVERT_MAX
  {
    ThreeFieldsSize(AdField(AD_FLAGS, [0x06]), AdField(AD_MANUFACTURER, p.data), AdField(AD_NAME_COMPLETE, Text(node)));
  }
}
