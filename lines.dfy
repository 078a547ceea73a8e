/**
 * Properties of the whole line: how it is framed, that a reader gets the
 * record back, that it holds a single newline, and which keys each kind of
 * event carries.
 */
module Lines {
  import opened Wrappers
  import opened Numerals
  import opened Clock
  import opened Json
  import opened Events
  import opened Payloads

  /**
   * The line is `{"timestamp":"<stamp>","event":"<name>"`, then the payload
   * members each preceded by a comma, then `}` and a single newline.
   */
  lemma LineFraming(id: int, data: EventData, now: TimeOfDay, trapName: uint16 -> string)
    requires PayloadMatches(id, data)
    ensures EventLine(id, data, now, trapName)
      == "{\"timestamp\":\"" + Timestamp(now) + "\",\"event\":\"" + EventIdToString(id) + "\""
         + TailText(PayloadFields(id, data, trapName)) + "}\n"
  {
    var stamp, name, p := Timestamp(now), EventIdToString(id), PayloadFields(id, data, trapName);
    var ts, ev := Field("timestamp", Str(stamp)), Field("event", Str(name));
    assert RecordFields(id, data, now, trapName) == [ts, ev] + p;
    ObjectOfTwo(ts, ev, p);
    assert MemberText(ts) == "\"" + "timestamp" + "\":" + ("\"" + stamp + "\"");
    assert MemberText(ev) == "\"" + "event" + "\":" + ("\"" + name + "\"");
    HeadShape(stamp, name, TailText(p));
  }

  /** The opening of every line, as the literal pieces of the JSON members fall together. */
  lemma HeadShape(stamp: string, name: string, tail: string)
    ensures "{" + (("\"" + "timestamp" + "\":" + ("\"" + stamp + "\"")) + ("," + ("\"" + "event" + "\":" + ("\"" + name + "\"")) + tail)) + "}" + "\n"
         == "{\"timestamp\":\"" + stamp + "\",\"event\":\"" + name + "\"" + tail + "}\n"
  {
    var k1, k2 := "\"" + "timestamp" + "\":", "\"" + "event" + "\":";
    HeadRegroup("{", k1, "\"", stamp, ",", k2, name, tail, "}", "\n");
    assert "{" + k1 + "\"" == "{\"timestamp\":\"";
    assert "\"" + "," + k2 + "\"" == "\",\"event\":\"";
    assert "}" + "\n" == "}\n";
  }

  lemma HeadRegroup(o: string, k1: string, q: string, stamp: string, c: string, k2: string,
                    name: string, tail: string, b: string, nl: string)
    ensures o + ((k1 + (q + stamp + q)) + (c + (k2 + (q + name + q)) + tail)) + b + nl
         == (o + k1 + q) + stamp + (q + c + k2 + q) + name + q + tail + (b + nl)
  {
  }

  /** Strings the exporter prints with `%s` besides its own constants: the node
      name and, for a generic trap, the trap name. */
  predicate PayloadStringsPlain(id: int, data: EventData, trapName: uint16 -> string)
    requires PayloadMatches(id, data)
  {
    && (id == PortErrorsId ==> IsPlainString(data.pe.portId.nodeName))
    && (id == TrapId && data.notice.isGeneric ==> IsPlainString(trapName(data.notice.trapNum)))
  }

  predicate PayloadStringsOneLine(id: int, data: EventData, trapName: uint16 -> string)
    requires PayloadMatches(id, data)
  {
    && (id == PortErrorsId ==> NoNewline(data.pe.portId.nodeName))
    && (id == TrapId && data.notice.isGeneric ==> NoNewline(trapName(data.notice.trapNum)))
  }

  lemma PlainLiteral(s: string)
    requires IsEventNameText(s) || StampChars(s)
    ensures IsPlainString(s) && NoNewline(s)
  {
  }

  lemma HeadKeysPlain()
    ensures IsPlainString("timestamp") && IsPlainString("event")
  {
  }

  /** The record's keys and strings need no escapes when the printed names need none. */
  lemma RecordPlain(id: int, data: EventData, now: TimeOfDay, trapName: uint16 -> string)
    requires PayloadMatches(id, data) && PayloadStringsPlain(id, data, trapName)
    ensures IsPlain(RecordFields(id, data, now, trapName))
  {
    TimestampChars(now);
    PlainLiteral(Timestamp(now));
    EventNameText(id);
    PlainLiteral(EventIdToString(id));
    HeadKeysPlain();
    var head := [Field("timestamp", Str(Timestamp(now))), Field("event", Str(EventIdToString(id)))];
    var p := PayloadFields(id, data, trapName);
    if id == PortErrorsId {
      PortErrorsFieldsPlain(data.pe);
    } else if id == TrapId {
      TrapFieldsPlain(data.notice, trapName);
    }
    IsPlainAppend(head, p);
  }

  lemma RecordOneLine(id: int, data: EventData, now: TimeOfDay, trapName: uint16 -> string)
    requires PayloadMatches(id, data) && PayloadStringsOneLine(id, data, trapName)
    ensures NoNewlines(RecordFields(id, data, now, trapName))
  {
    TimestampChars(now);
    PlainLiteral(Timestamp(now));
    EventNameText(id);
    PlainLiteral(EventIdToString(id));
    HeadKeysPlain();
    PlainNoNewline("timestamp");
    PlainNoNewline("event");
    var head := [Field("timestamp", Str(Timestamp(now))), Field("event", Str(EventIdToString(id)))];
    var p := PayloadFields(id, data, trapName);
    if id == PortErrorsId {
      PortErrorsFieldsOneLine(data.pe);
    } else if id == TrapId {
      TrapFieldsOneLine(data.notice, trapName);
    }
    NoNewlinesAppend(head, p);
  }

  /** A consumer that reads the line back gets the record's fields, in order,
      provided the printed names need no JSON escapes (nothing escapes them). */
  lemma LineRoundTrip(id: int, data: EventData, now: TimeOfDay, trapName: uint16 -> string)
    requires PayloadMatches(id, data) && PayloadStringsPlain(id, data, trapName)
    ensures ParseLine(EventLine(id, data, now, trapName)) == Some(RecordFields(id, data, now, trapName))
  {
    RecordPlain(id, data, now, trapName);
    ObjectLineRoundTrip(RecordFields(id, data, now, trapName));
  }

  /** Reading back an object followed by a newline. */
  lemma ObjectLineRoundTrip(fs: seq<Field>)
    requires IsPlain(fs)
    ensures ParseLine(ObjectText(fs) + "\n") == Some(fs)
  {
    ObjectRoundTrip(fs);
    var line := ObjectText(fs) + "\n";
    assert line[..|line| - 1] == ObjectText(fs);
  }

  /** The line ends in `}` and its only newline, when the printed names hold none. */
  lemma SingleLine(id: int, data: EventData, now: TimeOfDay, trapName: uint16 -> string)
    requires PayloadMatches(id, data) && PayloadStringsOneLine(id, data, trapName)
    ensures var line := EventLine(id, data, now, trapName);
      && |line| >= 3 && line[|line| - 1] == '\n' && line[|line| - 2] == '}' && line[|line| - 3] != ','
      && NoNewline(line[..|line| - 1])
  {
    RecordOneLine(id, data, now, trapName);
    ObjectLine(RecordFields(id, data, now, trapName));
  }

  /** An object whose strings hold no newline, followed by one newline. */
  lemma ObjectLine(fs: seq<Field>)
    requires NoNewlines(fs)
    ensures var line := ObjectText(fs) + "\n";
      && |line| >= 3 && line[|line| - 1] == '\n' && line[|line| - 2] == '}' && line[|line| - 3] != ','
      && NoNewline(line[..|line| - 1])
  {
    ObjectNoNewline(fs);
    NoTrailingComma(fs);
    var line := ObjectText(fs) + "\n";
    assert line[..|line| - 1] == ObjectText(fs);
  }

  /** Every kind but port errors and traps, unknown ids included, gets no payload key. */
  lemma NoPayloadOtherKinds(id: int, data: EventData, now: TimeOfDay, trapName: uint16 -> string)
    requires id != PortErrorsId && id != TrapId
    ensures Keys(RecordFields(id, data, now, trapName)) == ["timestamp", "event"]
    ensures EventLine(id, data, now, trapName)
      == "{\"timestamp\":\"" + Timestamp(now) + "\",\"event\":\"" + EventIdToString(id) + "\"" + "}\n"
  {
    var head := HeadFields(id, now);
    assert PayloadFields(id, data, trapName) == [];
    assert RecordFields(id, data, now, trapName) == head by {
      assert head + [] == head;
    }
    HeadKeys(id, now);
    LineFraming(id, data, now, trapName);
    EmptyTail("{\"timestamp\":\"" + Timestamp(now) + "\",\"event\":\"" + EventIdToString(id) + "\"", "}\n");
  }

  lemma EmptyTail(head: string, close: string)
    ensures head + TailText([]) + close == head + close
  {
    assert head + TailText([]) == head;
  }

  lemma HeadKeys(id: int, now: TimeOfDay)
    ensures Keys(HeadFields(id, now)) == ["timestamp", "event"]
  {
  }

  /** After the timestamp and the event name come exactly the sixteen payload keys of the table, in order. */
  lemma PortErrorsKeyOrder(pe: PortErrorsEvent, now: TimeOfDay, trapName: uint16 -> string)
    ensures Keys(RecordFields(PortErrorsId, PortErrorsData(pe), now, trapName)) == ["timestamp", "event"] + PortErrorsKeys
  {
    var head, p := HeadFields(PortErrorsId, now), PortErrorsFields(pe);
    assert RecordFields(PortErrorsId, PortErrorsData(pe), now, trapName) == head + p;
    KeysAppend(head, p);
    PortErrorsKeysOf(pe);
    HeadKeys(PortErrorsId, now);
  }

  /**
   * A port-errors record: its keys in the order of the table, the event
   * name, then the port-errors fields.
   */
  lemma PortErrorsRecord(pe: PortErrorsEvent, now: TimeOfDay, trapName: uint16 -> string)
    ensures var fs := RecordFields(PortErrorsId, PortErrorsData(pe), now, trapName);
      && Keys(fs) == ["timestamp", "event"] + PortErrorsKeys
      && fs[1].value == Str("PORT_ERRORS")
      && fs[2..] == PortErrorsFields(pe)
  {
    PortErrorsKeyOrder(pe, now, trapName);
    var head, p := HeadFields(PortErrorsId, now), PortErrorsFields(pe);
    var fs := RecordFields(PortErrorsId, PortErrorsData(pe), now, trapName);
    assert fs == head + p;
    assert fs[2..] == p;
  }

  /** A trap record's keys: `payload_trap_name` only when the notice is generic. */
  lemma TrapRecordKeys(notice: Notice, now: TimeOfDay, trapName: uint16 -> string)
    ensures var ks := Keys(RecordFields(TrapId, TrapData(notice), now, trapName));
      && (notice.isGeneric ==> ks == ["timestamp", "event"] + ["payload_type", "payload_trap_name", "payload_issuer_lid"])
      && (!notice.isGeneric ==> ks == ["timestamp", "event"] + ["payload_type", "payload_issuer_lid"])
  {
    var head, p := HeadFields(TrapId, now), TrapFields(notice, trapName);
    assert RecordFields(TrapId, TrapData(notice), now, trapName) == head + p;
    KeysAppend(head, p);
    HeadKeys(TrapId, now);
    TrapKeys(notice, trapName);
  }

  /** The trap name is among a trap record's keys exactly when the notice is generic. */
  lemma TrapNameKey(notice: Notice, now: TimeOfDay, trapName: uint16 -> string)
    ensures "payload_trap_name" in Keys(RecordFields(TrapId, TrapData(notice), now, trapName)) <==> notice.isGeneric
  {
    var head, p := HeadFields(TrapId, now), TrapFields(notice, trapName);
    assert RecordFields(TrapId, TrapData(notice), now, trapName) == head + p;
    KeysAppend(head, p);
    HeadKeys(TrapId, now);
    TrapKeys(notice, trapName);
    TrapNameNotHead();
    if notice.isGeneric {
      assert Keys(p)[1] == "payload_trap_name";
    } else {
      TrapNameNotVendor();
    }
  }

  lemma TrapNameNotHead()
    ensures "payload_trap_name" !in ["timestamp", "event"]
  {
    assert |"payload_trap_name"| == 17;
  }

  lemma TrapNameNotVendor()
    ensures "payload_trap_name" !in ["payload_type", "payload_issuer_lid"]
  {
    assert |"payload_trap_name"| == 17;
  }

  /**
   * A trap record's values: the event name, then "generic" or "vendor", the
   * table's name for the trap number of a generic notice, and the issuer LID last.
   */
  lemma TrapRecordValues(notice: Notice, now: TimeOfDay, trapName: uint16 -> string)
    ensures var fs := RecordFields(TrapId, TrapData(notice), now, trapName);
      && fs[1].value == Str("TRAP")
      && (notice.isGeneric ==>
            |fs| == 5 && fs[2].value == Str("generic") && fs[3].value == Str(trapName(notice.trapNum)))
      && (!notice.isGeneric ==> |fs| == 4 && fs[2].value == Str("vendor"))
      && fs[|fs| - 1].value == Num(notice.issuerLid)
  {
    var head, p := HeadFields(TrapId, now), TrapFields(notice, trapName);
    var fs := RecordFields(TrapId, TrapData(notice), now, trapName);
    assert fs == head + p;
  }
}
