/**
 * Facts about the two payloads: their keys and strings need no JSON
 * escapes (when the printed names need none), the GUID's rendering, and
 * each member's text in the pieces the C format strings print it in.
 */
module Payloads {
  import opened Numerals
  import opened Json
  import opened Events

  lemma GuidPlain(g: uint64)
    ensures IsPlainString(GuidText(g)) && NoNewline(GuidText(g))
  {
    HexWidth16(g);
    var t := GuidText(g);
    forall i | 0 <= i < |t| ensures IsPlainChar(t[i]) && t[i] != '\n' {
      if i >= 2 {
        assert t[i] == HexWidth(g, 16)[i - 2];
        assert IsDigitOf(t[i], 16);
      }
    }
  }

  /** The GUID text is `0x` and exactly sixteen lower-case hex digits that read back as the GUID. */
  lemma GuidRendering(g: uint64)
    ensures var t := GuidText(g);
      && |t| == 18 && t[..2] == "0x"
      && AllDigitsOf(t[2..], 16) && ValueOf(t[2..], 16) == g
  {
    HexWidth16(g);
    assert GuidText(g)[2..] == HexWidth(g, 16);
  }

  lemma GuidOfOne()
    ensures GuidText(1) == "0x0000000000000001"
  {
    HexWidthOfOne();
  }

  /** The GUID is a quoted `0x` and sixteen lower-case hex digits that read back as the GUID. */
  lemma PortErrorsGuidValue(pe: PortErrorsEvent)
    ensures var v := PortErrorsFields(pe)[0].value;
      && v.Str? && |v.s| == 18 && v.s[..2] == "0x"
      && AllDigitsOf(v.s[2..], 16) && ValueOf(v.s[2..], 16) == pe.portId.nodeGuid
  {
    GuidRendering(pe.portId.nodeGuid);
  }

  /** The GUID and the node name are strings (printed quoted); the port number
      and the thirteen counters, in order, are numbers (printed bare). */
  lemma PortErrorsValueKinds(pe: PortErrorsEvent)
    ensures var fs := PortErrorsFields(pe);
      && |fs| == 16
      && fs[0].value == Str(GuidText(pe.portId.nodeGuid))
      && fs[1].value == Num(pe.portId.portNum)
      && fs[2].value == Str(pe.portId.nodeName)
      && forall k :: 3 <= k < 16 ==> fs[k].value == Num(PortErrorsCounters(pe)[k - 3])
  {
    var vs := PortErrorsValues(pe);
    forall k | 3 <= k < 16 ensures vs[k] == Num(PortErrorsCounters(pe)[k - 3]) {
      assert vs[k] == Numbers(PortErrorsCounters(pe))[k - 3];
    }
  }

  lemma PortErrorsKeysOf(pe: PortErrorsEvent)
    ensures Keys(PortErrorsFields(pe)) == PortErrorsKeys
  {
    KeysOfFields(PortErrorsKeys, PortErrorsValues(pe));
  }

  // The key constants need no escapes; two at a time keeps each proof small.
  lemma PortErrorsKeysPlain01() ensures IsPlainString("payload_node_guid") && IsPlainString("payload_port_num") {}
  lemma PortErrorsKeysPlain23() ensures IsPlainString("payload_node_name") && IsPlainString("payload_symbol_err_cnt") {}
  lemma PortErrorsKeysPlain45() ensures IsPlainString("payload_link_err_recover") && IsPlainString("payload_link_downed") {}
  lemma PortErrorsKeysPlain67() ensures IsPlainString("payload_rcv_err") && IsPlainString("payload_rcv_rem_phys_err") {}
  lemma PortErrorsKeysPlain89() ensures IsPlainString("payload_rcv_switch_relay_err") && IsPlainString("payload_xmit_discards") {}
  lemma PortErrorsKeysPlain1011() ensures IsPlainString("payload_xmit_constraint_err") && IsPlainString("payload_rcv_constraint_err") {}
  lemma PortErrorsKeysPlain1213() ensures IsPlainString("payload_link_integrity") && IsPlainString("payload_buffer_overrun") {}
  lemma PortErrorsKeysPlain1415() ensures IsPlainString("payload_vl15_dropped") && IsPlainString("payload_xmit_wait") {}

  lemma PortErrorsKeysPlain()
    ensures forall i :: 0 <= i < |PortErrorsKeys| ==> IsPlainString(PortErrorsKeys[i])
  {
    PortErrorsKeysPlain01();
    PortErrorsKeysPlain23();
    PortErrorsKeysPlain45();
    PortErrorsKeysPlain67();
    PortErrorsKeysPlain89();
    PortErrorsKeysPlain1011();
    PortErrorsKeysPlain1213();
    PortErrorsKeysPlain1415();
  }

  lemma PortErrorsFieldsPlain(pe: PortErrorsEvent)
    requires IsPlainString(pe.portId.nodeName)
    ensures IsPlain(PortErrorsFields(pe))
  {
    var head := [Str(GuidText(pe.portId.nodeGuid)), Num(pe.portId.portNum), Str(pe.portId.nodeName)];
    GuidPlain(pe.portId.nodeGuid);
    assert PlainValues(head);
    NumbersPlain(PortErrorsCounters(pe));
    PlainValuesAppend(head, Numbers(PortErrorsCounters(pe)));
    PortErrorsKeysPlain();
    FieldsOfPlain(PortErrorsKeys, PortErrorsValues(pe));
  }

  lemma PortErrorsFieldsOneLine(pe: PortErrorsEvent)
    requires NoNewline(pe.portId.nodeName)
    ensures NoNewlines(PortErrorsFields(pe))
  {
    var head := [Str(GuidText(pe.portId.nodeGuid)), Num(pe.portId.portNum), Str(pe.portId.nodeName)];
    GuidPlain(pe.portId.nodeGuid);
    assert OneLineValues(head);
    NumbersPlain(PortErrorsCounters(pe));
    OneLineValuesAppend(head, Numbers(PortErrorsCounters(pe)));
    PortErrorsKeysPlain();
    forall i | 0 <= i < |PortErrorsKeys| ensures NoNewline(PortErrorsKeys[i]) {
      PlainNoNewline(PortErrorsKeys[i]);
    }
    FieldsOfOneLine(PortErrorsKeys, PortErrorsValues(pe));
  }

  lemma TrapKeysPlain()
    ensures IsPlainString("payload_type") && IsPlainString("payload_trap_name")
    ensures IsPlainString("payload_issuer_lid")
  {
  }

  /** The trap payload's keys: the trap name only for a generic notice. */
  lemma TrapKeys(notice: Notice, trapName: uint16 -> string)
    ensures Keys(TrapFields(notice, trapName))
      == if notice.isGeneric then ["payload_type", "payload_trap_name", "payload_issuer_lid"]
         else ["payload_type", "payload_issuer_lid"]
  {
  }

  lemma TrapFieldsPlain(notice: Notice, trapName: uint16 -> string)
    requires notice.isGeneric ==> IsPlainString(trapName(notice.trapNum))
    ensures IsPlain(TrapFields(notice, trapName))
  {
    TrapKeysPlain();
  }

  lemma TrapFieldsOneLine(notice: Notice, trapName: uint16 -> string)
    requires notice.isGeneric ==> NoNewline(trapName(notice.trapNum))
    ensures NoNewlines(TrapFields(notice, trapName))
  {
    TrapKeysPlain();
    PlainNoNewline("payload_type");
    PlainNoNewline("payload_trap_name");
    PlainNoNewline("payload_issuer_lid");
    PlainNoNewline(NoticeType(notice));
  }

  // ----- The text log_port_errors_payload prints -----

  /** The member at position `k` of the counters, given its key and count. */
  lemma CounterMember(pe: PortErrorsEvent, k: nat, key: string, n: nat)
    requires 3 <= k < 16 && PortErrorsKeys[k] == key && PortErrorsCounters(pe)[k - 3] == n
    ensures MemberTexts(PortErrorsFields(pe))[k] == KeyText(key) + Decimal(n)
  {
    assert PortErrorsValues(pe)[k] == Num(n);
    MemberOfKey(PortErrorsFields(pe)[k]);
  }

  // One lemma for each fprintf: the member's text with the commas that call
  // prints around it. One at a time keeps each proof small.
  lemma NodeGuidChunk(pe: PortErrorsEvent)
    ensures "," + MemberTexts(PortErrorsFields(pe))[0] + "," == "," + KeyText("payload_node_guid") + "\"" + GuidText(pe.portId.nodeGuid) + "\"" + ","
  {
    MemberOfKey(PortErrorsFields(pe)[0]);
  }

  lemma PortNumChunk(pe: PortErrorsEvent)
    ensures MemberTexts(PortErrorsFields(pe))[1] + "," == KeyText("payload_port_num") + Decimal(pe.portId.portNum) + ","
  {
    MemberOfKey(PortErrorsFields(pe)[1]);
  }

  lemma NodeNameChunk(pe: PortErrorsEvent)
    ensures MemberTexts(PortErrorsFields(pe))[2] + "," == KeyText("payload_node_name") + "\"" + pe.portId.nodeName + "\"" + ","
  {
    MemberOfKey(PortErrorsFields(pe)[2]);
  }

  lemma SymbolErrCntChunk(pe: PortErrorsEvent)
    ensures MemberTexts(PortErrorsFields(pe))[3] + "," == KeyText("payload_symbol_err_cnt") + Decimal(pe.symbolErrCnt) + ","
  {
    CounterMember(pe, 3, "payload_symbol_err_cnt", pe.symbolErrCnt);
  }

  lemma LinkErrRecoverChunk(pe: PortErrorsEvent)
    ensures MemberTexts(PortErrorsFields(pe))[4] + "," == KeyText("payload_link_err_recover") + Decimal(pe.linkErrRecover) + ","
  {
    CounterMember(pe, 4, "payload_link_err_recover", pe.linkErrRecover);
  }

  lemma LinkDownedChunk(pe: PortErrorsEvent)
    ensures MemberTexts(PortErrorsFields(pe))[5] + "," == KeyText("payload_link_downed") + Decimal(pe.linkDowned) + ","
  {
    CounterMember(pe, 5, "payload_link_downed", pe.linkDowned);
  }

  lemma RcvErrChunk(pe: PortErrorsEvent)
    ensures MemberTexts(PortErrorsFields(pe))[6] + "," == KeyText("payload_rcv_err") + Decimal(pe.rcvErr) + ","
  {
    CounterMember(pe, 6, "payload_rcv_err", pe.rcvErr);
  }

  lemma RcvRemPhysErrChunk(pe: PortErrorsEvent)
    ensures MemberTexts(PortErrorsFields(pe))[7] + "," == KeyText("payload_rcv_rem_phys_err") + Decimal(pe.rcvRemPhysErr) + ","
  {
    CounterMember(pe, 7, "payload_rcv_rem_phys_err", pe.rcvRemPhysErr);
  }

  lemma RcvSwitchRelayErrChunk(pe: PortErrorsEvent)
    ensures MemberTexts(PortErrorsFields(pe))[8] + "," == KeyText("payload_rcv_switch_relay_err") + Decimal(pe.rcvSwitchRelayErr) + ","
  {
    CounterMember(pe, 8, "payload_rcv_switch_relay_err", pe.rcvSwitchRelayErr);
  }

  lemma XmitDiscardsChunk(pe: PortErrorsEvent)
    ensures MemberTexts(PortErrorsFields(pe))[9] + "," == KeyText("payload_xmit_discards") + Decimal(pe.xmitDiscards) + ","
  {
    CounterMember(pe, 9, "payload_xmit_discards", pe.xmitDiscards);
  }

  lemma XmitConstraintErrChunk(pe: PortErrorsEvent)
    ensures MemberTexts(PortErrorsFields(pe))[10] + "," == KeyText("payload_xmit_constraint_err") + Decimal(pe.xmitConstraintErr) + ","
  {
    CounterMember(pe, 10, "payload_xmit_constraint_err", pe.xmitConstraintErr);
  }

  lemma RcvConstraintErrChunk(pe: PortErrorsEvent)
    ensures MemberTexts(PortErrorsFields(pe))[11] + "," == KeyText("payload_rcv_constraint_err") + Decimal(pe.rcvConstraintErr) + ","
  {
    CounterMember(pe, 11, "payload_rcv_constraint_err", pe.rcvConstraintErr);
  }

  lemma LinkIntegrityChunk(pe: PortErrorsEvent)
    ensures MemberTexts(PortErrorsFields(pe))[12] + "," == KeyText("payload_link_integrity") + Decimal(pe.linkIntegrity) + ","
  {
    CounterMember(pe, 12, "payload_link_integrity", pe.linkIntegrity);
  }

  lemma BufferOverrunChunk(pe: PortErrorsEvent)
    ensures MemberTexts(PortErrorsFields(pe))[13] + "," == KeyText("payload_buffer_overrun") + Decimal(pe.bufferOverrun) + ","
  {
    CounterMember(pe, 13, "payload_buffer_overrun", pe.bufferOverrun);
  }

  lemma Vl15DroppedChunk(pe: PortErrorsEvent)
    ensures MemberTexts(PortErrorsFields(pe))[14] + "," == KeyText("payload_vl15_dropped") + Decimal(pe.vl15Dropped) + ","
  {
    CounterMember(pe, 14, "payload_vl15_dropped", pe.vl15Dropped);
  }

  lemma XmitWaitChunk(pe: PortErrorsEvent)
    ensures MemberTexts(PortErrorsFields(pe))[15] == KeyText("payload_xmit_wait") + Decimal(pe.xmitWait)
  {
    CounterMember(pe, 15, "payload_xmit_wait", pe.xmitWait);
  }

  /** What the sixteen fprintf calls of log_port_errors_payload append, in
      order, is the comma-led text of the port-errors fields. */
  lemma PortErrorsPrinted(pe: PortErrorsEvent, start: string)
    ensures start + TailText(PortErrorsFields(pe)) ==
      start
      + ("," + KeyText("payload_node_guid") + "\"" + GuidText(pe.portId.nodeGuid) + "\"" + ",")
      + (KeyText("payload_port_num") + Decimal(pe.portId.portNum) + ",")
      + (KeyText("payload_node_name") + "\"" + pe.portId.nodeName + "\"" + ",")
      + (KeyText("payload_symbol_err_cnt") + Decimal(pe.symbolErrCnt) + ",")
      + (KeyText("payload_link_err_recover") + Decimal(pe.linkErrRecover) + ",")
      + (KeyText("payload_link_downed") + Decimal(pe.linkDowned) + ",")
      + (KeyText("payload_rcv_err") + Decimal(pe.rcvErr) + ",")
      + (KeyText("payload_rcv_rem_phys_err") + Decimal(pe.rcvRemPhysErr) + ",")
      + (KeyText("payload_rcv_switch_relay_err") + Decimal(pe.rcvSwitchRelayErr) + ",")
      + (KeyText("payload_xmit_discards") + Decimal(pe.xmitDiscards) + ",")
      + (KeyText("payload_xmit_constraint_err") + Decimal(pe.xmitConstraintErr) + ",")
      + (KeyText("payload_rcv_constraint_err") + Decimal(pe.rcvConstraintErr) + ",")
      + (KeyText("payload_link_integrity") + Decimal(pe.linkIntegrity) + ",")
      + (KeyText("payload_buffer_overrun") + Decimal(pe.bufferOverrun) + ",")
      + (KeyText("payload_vl15_dropped") + Decimal(pe.vl15Dropped) + ",")
      + (KeyText("payload_xmit_wait") + Decimal(pe.xmitWait))
  {
    var fs := PortErrorsFields(pe);
    TailTextFromLeft(fs);
    NodeGuidChunk(pe);
    PortNumChunk(pe);
    NodeNameChunk(pe);
    SymbolErrCntChunk(pe);
    LinkErrRecoverChunk(pe);
    LinkDownedChunk(pe);
    RcvErrChunk(pe);
    RcvRemPhysErrChunk(pe);
    RcvSwitchRelayErrChunk(pe);
    XmitDiscardsChunk(pe);
    XmitConstraintErrChunk(pe);
    RcvConstraintErrChunk(pe);
    LinkIntegrityChunk(pe);
    BufferOverrunChunk(pe);
    Vl15DroppedChunk(pe);
    XmitWaitChunk(pe);
    CommaChunks16(MemberTexts(fs), start,
      "," + KeyText("payload_node_guid") + "\"" + GuidText(pe.portId.nodeGuid) + "\"" + ",",
      KeyText("payload_port_num") + Decimal(pe.portId.portNum) + ",",
      KeyText("payload_node_name") + "\"" + pe.portId.nodeName + "\"" + ",",
      KeyText("payload_symbol_err_cnt") + Decimal(pe.symbolErrCnt) + ",",
      KeyText("payload_link_err_recover") + Decimal(pe.linkErrRecover) + ",",
      KeyText("payload_link_downed") + Decimal(pe.linkDowned) + ",",
      KeyText("payload_rcv_err") + Decimal(pe.rcvErr) + ",",
      KeyText("payload_rcv_rem_phys_err") + Decimal(pe.rcvRemPhysErr) + ",",
      KeyText("payload_rcv_switch_relay_err") + Decimal(pe.rcvSwitchRelayErr) + ",",
      KeyText("payload_xmit_discards") + Decimal(pe.xmitDiscards) + ",",
      KeyText("payload_xmit_constraint_err") + Decimal(pe.xmitConstraintErr) + ",",
      KeyText("payload_rcv_constraint_err") + Decimal(pe.rcvConstraintErr) + ",",
      KeyText("payload_link_integrity") + Decimal(pe.linkIntegrity) + ",",
      KeyText("payload_buffer_overrun") + Decimal(pe.bufferOverrun) + ",",
      KeyText("payload_vl15_dropped") + Decimal(pe.vl15Dropped) + ",",
      KeyText("payload_xmit_wait") + Decimal(pe.xmitWait));
  }

  // ----- The text log_trap_payload prints -----

  lemma TypeChunk(notice: Notice, trapName: uint16 -> string)
    ensures "," + MemberTexts(TrapFields(notice, trapName))[0] + ","
      == "," + KeyText("payload_type") + "\"" + NoticeType(notice) + "\"" + ","
  {
    MemberOfKey(TrapFields(notice, trapName)[0]);
  }

  lemma TrapNameChunk(notice: Notice, trapName: uint16 -> string)
    requires notice.isGeneric
    ensures MemberTexts(TrapFields(notice, trapName))[1] + ","
      == KeyText("payload_trap_name") + "\"" + trapName(notice.trapNum) + "\"" + ","
  {
    MemberOfKey(TrapFields(notice, trapName)[1]);
  }

  lemma IssuerLidChunk(notice: Notice, trapName: uint16 -> string)
    ensures var ms := MemberTexts(TrapFields(notice, trapName));
      ms[|ms| - 1] == KeyText("payload_issuer_lid") + Decimal(notice.issuerLid)
  {
    var fs := TrapFields(notice, trapName);
    MemberOfKey(fs[|fs| - 1]);
  }

  /** What log_trap_payload appends for a generic notice: the type, the trap
      name and the issuer LID, each member led by a comma. */
  lemma GenericTrapPrinted(notice: Notice, trapName: uint16 -> string, start: string)
    requires notice.isGeneric
    ensures start + TailText(TrapFields(notice, trapName)) ==
      start
      + ("," + KeyText("payload_type") + "\"" + NoticeType(notice) + "\"" + ",")
      + (KeyText("payload_trap_name") + "\"" + trapName(notice.trapNum) + "\"" + ",")
      + (KeyText("payload_issuer_lid") + Decimal(notice.issuerLid))
  {
    var fs := TrapFields(notice, trapName);
    assert |fs| == 3;
    TailTextFromLeft(fs);
    TypeChunk(notice, trapName);
    TrapNameChunk(notice, trapName);
    IssuerLidChunk(notice, trapName);
    CommaChunks3(MemberTexts(fs), start,
      "," + KeyText("payload_type") + "\"" + NoticeType(notice) + "\"" + ",",
      KeyText("payload_trap_name") + "\"" + trapName(notice.trapNum) + "\"" + ",",
      KeyText("payload_issuer_lid") + Decimal(notice.issuerLid));
  }

  /** For a vendor notice there is no trap name: the type, then the issuer LID. */
  lemma VendorTrapPrinted(notice: Notice, trapName: uint16 -> string, start: string)
    requires !notice.isGeneric
    ensures start + TailText(TrapFields(notice, trapName)) ==
      start
      + ("," + KeyText("payload_type") + "\"" + NoticeType(notice) + "\"" + ",")
      + (KeyText("payload_issuer_lid") + Decimal(notice.issuerLid))
  {
    var fs := TrapFields(notice, trapName);
    assert |fs| == 2;
    TailTextFromLeft(fs);
    TypeChunk(notice, trapName);
    IssuerLidChunk(notice, trapName);
    CommaChunks2(MemberTexts(fs), start,
      "," + KeyText("payload_type") + "\"" + NoticeType(notice) + "\"" + ",",
      KeyText("payload_issuer_lid") + Decimal(notice.issuerLid));
  }
}
