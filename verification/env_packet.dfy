/** The environment record the mobile node sends to the base node, and its layout in memory. */
module EnvPackets {
  import opened Bytes
  import opened NodeNames
  import opened Packets
  import opened Tables

  datatype Telemetry = Telemetry(timestampMs: u32, reading: Reading)

  type EnvRecord = Entry<Name, Telemetry>

  function EowRecord(width: nat): EnvRecord
    requires width >= |EOW_MARKER|
  {
    Entry(EowName(width), Telemetry(0, Reading(0, 0, 0, 0)))
  }

  /** Where the timestamp and the readings start: the name is padded to a 4-byte boundary. */
  function ReadingsOffset(nameLen: nat): nat {
    (nameLen + 3) / 4 * 4
  }

  /** sizeof(struct env_record): the padded name, a 32-bit and four 16-bit fields. */
  function RecordSize(nameLen: nat): nat {
    ReadingsOffset(nameLen) + 4 + 4 * 2
  }
}
