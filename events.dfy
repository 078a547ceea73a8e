/**
 * What the exporter writes for one event: the event's name, the payload
 * fields of the two kinds that carry one (port errors and traps), and the
 * whole record as one line. These functions say what each line means; the
 * methods of module Plugin, which append it piece by piece as the C code
 * does, are proved to write exactly this text.
 */
module Events {
  import opened Wrappers
  import opened Numerals
  import opened Clock
  import opened Json

  // The enumerators of osm_epi_event_id_t, in declaration order.
  const PortErrorsId: int := 0
  const PortDataCountersId: int := 1
  const PortSelectId: int := 2
  const TrapId: int := 3
  const SubnetUpId: int := 4
  const HeavySweepStartId: int := 5
  const HeavySweepDoneId: int := 6
  const UcastRoutingDoneId: int := 7
  const StateChangeId: int := 8
  const SaDbDumpedId: int := 9
  const LftChangeId: int := 10

  /** One past the last enumerator (OSM_EVENT_ID_MAX). */
  const EventIdMax: int := 11

  /** The ids the name switch has a case for. */
  predicate IsKnownId(id: int) {
    PortErrorsId <= id < EventIdMax
  }

  /** The event's name; every id without a case of its own is "UNKNOWN". */
  function EventIdToString(id: int): (name: string)
    ensures name == "UNKNOWN" <==> !IsKnownId(id)
  {
    if id == PortErrorsId then "PORT_ERRORS"
    else if id == PortDataCountersId then "PORT_DATA_COUNTERS"
    else if id == PortSelectId then "PORT_SELECT"
    else if id == TrapId then "TRAP"
    else if id == SubnetUpId then "SUBNET_UP"
    else if id == HeavySweepStartId then "HEAVY_SWEEP_START"
    else if id == HeavySweepDoneId then "HEAVY_SWEEP_DONE"
    else if id == UcastRoutingDoneId then "UCAST_ROUTING_DONE"
    else if id == StateChangeId then "STATE_CHANGE"
    else if id == SaDbDumpedId then "SA_DB_DUMPED"
    else if id == LftChangeId then "LFT_CHANGE"
    else "UNKNOWN"
  }

  /** Event names are upper-case letters and underscores. */
  predicate IsEventNameText(s: string) {
    forall i :: 0 <= i < |s| ==> ('A' <= s[i] <= 'Z' || s[i] == '_')
  }

  /** Every name, "UNKNOWN" included, is a non-empty run of upper-case letters
      and underscores, so it needs no escape inside a JSON string. */
  lemma EventNameText(id: int)
    ensures |EventIdToString(id)| > 0 && IsEventNameText(EventIdToString(id))
  {
    if id < StateChangeId {
      EarlyNamesText(id);
    } else {
      LateNamesText(id);
    }
  }

  lemma EarlyNamesText(id: int)
    requires id < StateChangeId
    ensures |EventIdToString(id)| > 0 && IsEventNameText(EventIdToString(id))
  {
    if id < SubnetUpId {
      FirstNamesText(id);
    } else if id < HeavySweepDoneId {
      assert id == SubnetUpId || id == HeavySweepStartId;
    } else {
      assert id == HeavySweepDoneId || id == UcastRoutingDoneId;
    }
  }

  lemma FirstNamesText(id: int)
    requires id < SubnetUpId
    ensures |EventIdToString(id)| > 0 && IsEventNameText(EventIdToString(id))
  {
  }

  lemma LateNamesText(id: int)
    requires id >= StateChangeId
    ensures |EventIdToString(id)| > 0 && IsEventNameText(EventIdToString(id))
  {
  }

  /** A consumer's inverse of the name switch: the id, among the known ones, that has this name. */
  function IdOfName(name: string): Option<int> {
    FindId(name, PortErrorsId)
  }

  function FindId(name: string, from: int): (r: Option<int>)
    requires PortErrorsId <= from <= EventIdMax
    ensures r.Some? ==> from <= r.value < EventIdMax && EventIdToString(r.value) == name
    decreases EventIdMax - from
  {
    if from == EventIdMax then None
    else if EventIdToString(from) == name then Some(from)
    else FindId(name, from + 1)
  }

  /** Each known id's name is one listed in the event-kind table. */
  lemma KnownEventNames()
    ensures EventIdToString(PortErrorsId) == "PORT_ERRORS"
    ensures EventIdToString(PortDataCountersId) == "PORT_DATA_COUNTERS"
    ensures EventIdToString(PortSelectId) == "PORT_SELECT"
    ensures EventIdToString(TrapId) == "TRAP"
    ensures EventIdToString(SubnetUpId) == "SUBNET_UP"
    ensures EventIdToString(HeavySweepStartId) == "HEAVY_SWEEP_START"
    ensures EventIdToString(HeavySweepDoneId) == "HEAVY_SWEEP_DONE"
    ensures EventIdToString(UcastRoutingDoneId) == "UCAST_ROUTING_DONE"
    ensures EventIdToString(StateChangeId) == "STATE_CHANGE"
    ensures EventIdToString(SaDbDumpedId) == "SA_DB_DUMPED"
    ensures EventIdToString(LftChangeId) == "LFT_CHANGE"
  {
  }

  /** The names of distinct known ids differ, so a known name identifies its id. */
  lemma {:induction false} NameIdentifiesId(id: int)
    requires IsKnownId(id)
    ensures IdOfName(EventIdToString(id)) == Some(id)
  {
    var name := EventIdToString(id);
    forall j | PortErrorsId <= j < id ensures EventIdToString(j) != name {
    }
    FindIdSkips(name, PortErrorsId, id);
  }

  lemma {:induction false} FindIdSkips(name: string, from: int, id: int)
    requires PortErrorsId <= from <= id < EventIdMax && EventIdToString(id) == name
    requires forall j :: from <= j < id ==> EventIdToString(j) != name
    ensures FindId(name, from) == Some(id)
    decreases id - from
  {
    if from < id {
      assert EventIdToString(from) != name;
      FindIdSkips(name, from + 1, id);
      assert FindId(name, from) == FindId(name, from + 1);
    } else {
      assert EventIdToString(from) == name;
    }
  }

  /** "UNKNOWN" names no known id, so a consumer cannot mistake it for one. */
  lemma UnknownNamesNoId()
    ensures IdOfName("UNKNOWN") == None
  {
    var r := IdOfName("UNKNOWN");
    if r.Some? {
      assert EventIdToString(r.value) == "UNKNOWN";
    }
  }

  // ----- Payloads -----

  /** osm_epi_port_id_t, with the GUID already in host order and the name
      as the characters before its terminating NUL. */
  datatype PortId = PortId(nodeGuid: uint64, portNum: uint8, nodeName: string)

  /** osm_epi_pe_event_t: the port and its fourteen error counters. */
  datatype PortErrorsEvent = PortErrorsEvent(
    portId: PortId,
    symbolErrCnt: uint64,
    linkErrRecover: uint64,
    linkDowned: uint64,
    rcvErr: uint64,
    rcvRemPhysErr: uint64,
    rcvSwitchRelayErr: uint64,
    xmitDiscards: uint64,
    xmitConstraintErr: uint64,
    rcvConstraintErr: uint64,
    linkIntegrity: uint64,
    bufferOverrun: uint64,
    vl15Dropped: uint64,
    xmitWait: uint64)

  /** The parts of ib_mad_notice_attr_t the exporter reads: whether the notice
      is generic, the generic trap number (as stored, handed to the trap-name
      table unconverted) and the issuer LID in host order. */
  datatype Notice = Notice(isGeneric: bool, trapNum: uint16, issuerLid: uint16)

  /** What the untyped event_data argument refers to. */
  datatype EventData = PortErrorsData(pe: PortErrorsEvent) | TrapData(notice: Notice) | OtherData

  /** The payload the host hands over with each id: the exporter casts the
      argument to the type the id implies and reads it. */
  predicate PayloadMatches(id: int, data: EventData) {
    && (id == PortErrorsId ==> data.PortErrorsData?)
    && (id == TrapId ==> data.TrapData?)
  }

  /** The payload keys of a port-errors event, in the order of the event-kind table. */
  const PortErrorsKeys: seq<string> :=
    ["payload_node_guid", "payload_port_num", "payload_node_name", "payload_symbol_err_cnt"]
    + ["payload_link_err_recover", "payload_link_downed", "payload_rcv_err", "payload_rcv_rem_phys_err"]
    + ["payload_rcv_switch_relay_err", "payload_xmit_discards", "payload_xmit_constraint_err", "payload_rcv_constraint_err"]
    + ["payload_link_integrity", "payload_buffer_overrun", "payload_vl15_dropped", "payload_xmit_wait"]

  /** "0x%016" PRIx64 of the node GUID. */
  function GuidText(g: uint64): string {
    "0x" + HexWidth(g, 16)
  }

  /** The thirteen error counters, in the order log_port_errors_payload prints them. */
  function PortErrorsCounters(pe: PortErrorsEvent): seq<uint64> {
    [pe.symbolErrCnt, pe.linkErrRecover, pe.linkDowned, pe.rcvErr]
    + [pe.rcvRemPhysErr, pe.rcvSwitchRelayErr, pe.xmitDiscards, pe.xmitConstraintErr]
    + [pe.rcvConstraintErr, pe.linkIntegrity, pe.bufferOverrun, pe.vl15Dropped, pe.xmitWait]
  }

  /** The values log_port_errors_payload prints, in the order of its keys: the
      GUID in hex, the port number, the node name, then the counters. */
  function PortErrorsValues(pe: PortErrorsEvent): seq<Value> {
    [Str(GuidText(pe.portId.nodeGuid)), Num(pe.portId.portNum), Str(pe.portId.nodeName)]
    + Numbers(PortErrorsCounters(pe))
  }

  /** The port-errors payload: each key of the table with its value. */
  function PortErrorsFields(pe: PortErrorsEvent): seq<Field> {
    FieldsOf(PortErrorsKeys, PortErrorsValues(pe))
  }

  function NoticeType(notice: Notice): string {
    if notice.isGeneric then "generic" else "vendor"
  }

  /** The trap payload; `trapName` stands for the trap-name table (ib_get_trap_str). */
  function TrapFields(notice: Notice, trapName: uint16 -> string): seq<Field> {
    [Field("payload_type", Str(NoticeType(notice)))]
    + (if notice.isGeneric then [Field("payload_trap_name", Str(trapName(notice.trapNum)))] else [])
    + [Field("payload_issuer_lid", Num(notice.issuerLid))]
  }

  /** The payload switch: only port errors and traps add fields. */
  function PayloadFields(id: int, data: EventData, trapName: uint16 -> string): seq<Field>
    requires PayloadMatches(id, data)
  {
    if id == PortErrorsId then PortErrorsFields(data.pe)
    else if id == TrapId then TrapFields(data.notice, trapName)
    else []
  }

  /** The two members every record opens with. */
  function HeadFields(id: int, now: TimeOfDay): seq<Field> {
    [Field("timestamp", Str(Timestamp(now))), Field("event", Str(EventIdToString(id)))]
  }

  /** The record of one event: the two opening members, then the payload. */
  function RecordFields(id: int, data: EventData, now: TimeOfDay, trapName: uint16 -> string): seq<Field>
    requires PayloadMatches(id, data)
  {
    HeadFields(id, now) + PayloadFields(id, data, trapName)
  }

  /** The line written for one event: the record as one object, then a newline. */
  function EventLine(id: int, data: EventData, now: TimeOfDay, trapName: uint16 -> string): string
    requires PayloadMatches(id, data)
  {
    ObjectText(RecordFields(id, data, now, trapName)) + "\n"
  }

  /** A consumer's reading of one newline-terminated line. */
  function ParseLine(line: string): Option<seq<Field>> {
    if line != [] && line[|line| - 1] == '\n' then ParseObject(line[..|line| - 1]) else None
  }
}
