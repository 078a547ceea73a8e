/**
 * The plugin's state and entry points. A stdio stream opened for appending
 * is a LogFile: the text the file holds and whether the stream is open.
 * The logger is the one-field record that holds the stream. The functions
 * that write an event append to the stream one fprintf at a time, as the C
 * code does, and each is proved to append exactly the text that module
 * Events says the event's line is.
 */
module Plugin {
  import opened Wrappers
  import opened Numerals
  import opened Clock
  import opened Json
  import opened Events
  import opened Payloads
  import opened Lines

  /** EVENT_EXPORT_PLUGIN_DEFAULT_OUTPUT_FILE. */
  const DefaultOutputFile: string := "/var/log/opensm-events.log"

  /** A FILE opened with mode "a": every write lands at the end of the file. */
  class LogFile {
    const path: string
    var contents: string
    var isOpen: bool

    /** fopen(path, "a") that succeeded on a file that held `existing`. */
    constructor Open(path: string, existing: string)
      ensures this.path == path && contents == existing && isOpen
    {
      this.path := path;
      contents := existing;
      isOpen := true;
    }

    /** fprintf of text already formatted: appends it. */
    method Fprintf(text: string)
      requires isOpen
      modifies this
      ensures isOpen && contents == old(contents) + text
    {
      contents := contents + text;
    }

    /** fflush: the model writes through, so the text stays as it is. */
    method Fflush()
      requires isOpen
      ensures isOpen && contents == old(contents)
    {
    }

    /** fclose: the stream is closed and the file keeps what was written. */
    method Fclose()
      requires isOpen
      modifies this
      ensures !isOpen && contents == old(contents)
    {
      isOpen := false;
    }
  }

  /** _json_event_logger_t. */
  class EventLogger {
    var logFile: LogFile?

    constructor (logFile: LogFile?)
      ensures this.logFile == logFile
    {
      this.logFile := logFile;
    }

    /**
     * log_event: the timestamp and the event name, the payload the id calls
     * for, then the closing brace and the newline; the stream is flushed.
     * `now` is what gettimeofday and gmtime yield; `trapName` stands for
     * the trap-name table.
     */
    method LogEvent(id: int, data: EventData, now: TimeOfDay, trapName: uint16 -> string)
      requires logFile != null && logFile.isOpen && PayloadMatches(id, data)
      modifies logFile
      ensures logFile.isOpen
      ensures logFile.contents == old(logFile.contents) + EventLine(id, data, now, trapName)
    {
      var file := logFile;
      ghost var start := file.contents;
      var timeBuffer := IsoSeconds(now.utc);
      var name := EventIdToString(id);
      file.Fprintf("{\"timestamp\":\"" + (timeBuffer + "." + DecimalWidth(now.usec, 6) + "Z")
        + "\",\"event\":\"" + name + "\"");
      ghost var head := file.contents;
      if id == PortErrorsId {
        LogPortErrorsPayload(file, data.pe);
      } else if id == TrapId {
        LogTrapPayload(file, data.notice, trapName);
      } else {
        assert PayloadFields(id, data, trapName) == [];
        assert head + TailText(PayloadFields(id, data, trapName)) == head;
      }
      file.Fprintf("}\n");
      file.Fflush();
      LineFraming(id, data, now, trapName);
      WrittenLine(start, "{\"timestamp\":\"" + Timestamp(now) + "\",\"event\":\"" + name + "\"",
        TailText(PayloadFields(id, data, trapName)));
    }
  }

  /** Appending the pieces of a line one after another appends the line. */
  lemma WrittenLine(start: string, head: string, payload: string)
    ensures start + (head + payload + "}\n") == start + head + payload + "}\n"
  {
  }

  /**
   * log_port_errors_payload: sixteen fprintf calls, the first led by a comma,
   * all but the last closed by one. Together they append the port-errors
   * fields, each led by its comma.
   */
  method LogPortErrorsPayload(logFile: LogFile, pe: PortErrorsEvent)
    requires logFile.isOpen
    modifies logFile
    ensures logFile.isOpen
    ensures logFile.contents == old(logFile.contents) + TailText(PortErrorsFields(pe))
  {
    ghost var start := logFile.contents;
    logFile.Fprintf("," + KeyText("payload_node_guid") + "\"" + GuidText(pe.portId.nodeGuid) + "\"" + ",");
    logFile.Fprintf(KeyText("payload_port_num") + Decimal(pe.portId.portNum) + ",");
    logFile.Fprintf(KeyText("payload_node_name") + "\"" + pe.portId.nodeName + "\"" + ",");
    logFile.Fprintf(KeyText("payload_symbol_err_cnt") + Decimal(pe.symbolErrCnt) + ",");
    logFile.Fprintf(KeyText("payload_link_err_recover") + Decimal(pe.linkErrRecover) + ",");
    logFile.Fprintf(KeyText("payload_link_downed") + Decimal(pe.linkDowned) + ",");
    logFile.Fprintf(KeyText("payload_rcv_err") + Decimal(pe.rcvErr) + ",");
    logFile.Fprintf(KeyText("payload_rcv_rem_phys_err") + Decimal(pe.rcvRemPhysErr) + ",");
    logFile.Fprintf(KeyText("payload_rcv_switch_relay_err") + Decimal(pe.rcvSwitchRelayErr) + ",");
    logFile.Fprintf(KeyText("payload_xmit_discards") + Decimal(pe.xmitDiscards) + ",");
    logFile.Fprintf(KeyText("payload_xmit_constraint_err") + Decimal(pe.xmitConstraintErr) + ",");
    logFile.Fprintf(KeyText("payload_rcv_constraint_err") + Decimal(pe.rcvConstraintErr) + ",");
    logFile.Fprintf(KeyText("payload_link_integrity") + Decimal(pe.linkIntegrity) + ",");
    logFile.Fprintf(KeyText("payload_buffer_overrun") + Decimal(pe.bufferOverrun) + ",");
    logFile.Fprintf(KeyText("payload_vl15_dropped") + Decimal(pe.vl15Dropped) + ",");
    logFile.Fprintf(KeyText("payload_xmit_wait") + Decimal(pe.xmitWait));
    PortErrorsPrinted(pe, start);
  }

  /**
   * log_trap_payload: the notice type, the trap name only when the notice is
   * generic, and the issuer LID. Together they append the trap fields.
   */
  method LogTrapPayload(logFile: LogFile, notice: Notice, trapName: uint16 -> string)
    requires logFile.isOpen
    modifies logFile
    ensures logFile.isOpen
    ensures logFile.contents == old(logFile.contents) + TailText(TrapFields(notice, trapName))
  {
    ghost var start := logFile.contents;
    var kind := if notice.isGeneric then "generic" else "vendor";
    logFile.Fprintf("," + KeyText("payload_type") + "\"" + kind + "\"" + ",");
    if notice.isGeneric {
      logFile.Fprintf(KeyText("payload_trap_name") + "\"" + trapName(notice.trapNum) + "\"" + ",");
    }
    logFile.Fprintf(KeyText("payload_issuer_lid") + Decimal(notice.issuerLid));
    if notice.isGeneric {
      GenericTrapPrinted(notice, trapName, start);
    } else {
      VendorTrapPrinted(notice, trapName, start);
    }
  }

  /** The destination: the option string when it is given and not empty, the default otherwise. */
  function OutputFile(options: Option<string>): (path: string)
    ensures options.Some? && options.value != [] ==> path == options.value
    ensures options.None? || options.value == [] ==> path == DefaultOutputFile
  {
    if options.Some? && options.value != [] then options.value else DefaultOutputFile
  }

  /** Whatever the options, the destination is a non-empty path. */
  lemma OutputFileNonEmpty(options: Option<string>)
    ensures |OutputFile(options)| > 0
  {
  }

  /**
   * construct: allocate the logger and open the destination for appending.
   * `allocOk` and `openOk` are whether malloc and fopen succeeded, and `existing`
   * is what the file held before. A failure of either yields no logger.
   */
  method Construct(options: Option<string>, allocOk: bool, openOk: bool, existing: string)
    returns (logger: EventLogger?)
    ensures logger == null <==> !(allocOk && openOk)
    ensures logger != null ==>
      && fresh(logger) && logger.logFile != null && fresh(logger.logFile)
      && logger.logFile.path == OutputFile(options)
      && logger.logFile.contents == existing && logger.logFile.isOpen
  {
    if !allocOk {
      return null;
    }
    var outputFile := DefaultOutputFile;
    if options.Some? && options.value != [] {
      outputFile := options.value;
    }
    if !openOk {
      return null;
    }
    var file := new LogFile.Open(outputFile, existing);
    logger := new EventLogger(file);
  }

  /** destroy: nothing for no logger; otherwise the stream is closed, if there is one. */
  method Destroy(logger: EventLogger?)
    requires logger != null && logger.logFile != null ==> logger.logFile.isOpen
    modifies if logger != null && logger.logFile != null then {logger.logFile} else {}
    ensures logger != null && logger.logFile != null ==>
      !logger.logFile.isOpen && logger.logFile.contents == old(logger.logFile.contents)
  {
    if logger != null {
      if logger.logFile != null {
        logger.logFile.Fclose();
      }
    }
  }

  /** report: hand the event to log_event. */
  method Report(logger: EventLogger, id: int, data: EventData, now: TimeOfDay, trapName: uint16 -> string)
    requires logger.logFile != null && logger.logFile.isOpen && PayloadMatches(id, data)
    modifies logger.logFile
    ensures logger.logFile.isOpen
    ensures logger.logFile.contents == old(logger.logFile.contents) + EventLine(id, data, now, trapName)
  {
    logger.LogEvent(id, data, now, trapName);
  }
}
