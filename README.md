# OpenSM event export plugin, modelled in Dafny

The OpenSM event export plugin is an event plugin for the InfiniBand subnet
manager. For every event the host reports, it appends one JSON object on one
line to a log file. The line holds:

- `timestamp`: UTC, `YYYY-MM-DDTHH:MM:SS.uuuuuuZ`;
- `event`: the name of the event kind;
- a payload, for two kinds only:
  - port errors: the port, its node and thirteen error counters;
  - traps: the notice type, the trap name for a generic notice, and the issuer LID.

The plugin has three entry points:

- `construct` picks the destination file and opens it for appending;
- `report` writes one event;
- `destroy` closes the file.

The model has eight modules, one file each:

- `Wrappers` (`wrappers.dfy`): `Option`.
- `Numerals` (`numerals.dfy`): the printf integer conversions the format strings use: `%u`, `%lu`, zero-padded `%06ld`, and `%016` with `PRIx64`.
  - Each is proved to read back as the printed number.
  - Each is proved to have the width the flag promises.
- `Clock` (`clock.dfy`): the timestamp text. It is built from strftime's `%Y-%m-%dT%H:%M:%S`, then `.`, the microseconds padded to six digits, and `Z`.
- `Json` (`json.dfy`): an ordered list of JSON members, how the exporter prints it, and a reader for the compact flat objects it prints.
  - The reader is the independent partner of the printer: reading back a printed object gives its members, in order.
- `Events` (`events.dfy`):
  - the event ids and `event_id_to_string`;
  - the two payloads as member lists;
  - the full record of an event and the line that holds it.
- `Payloads` (`payloads.dfy`):
  - the GUID's rendering;
  - the key list;
  - each member's text in the pieces the C format strings print it in.
- `Lines` (`lines.dfy`): properties of the whole line:
  - its framing;
  - round trip through the reader;
  - a single newline;
  - which keys each kind carries.
- `Plugin` (`plugin.dfy`): the state and the entry points.
  - A stdio stream opened with mode `"a"` is the class `LogFile`: the text the file holds and an open flag.
  - `fprintf` appends text; `fclose` clears the flag.
  - `_json_event_logger_t` is the class `EventLogger`, whose one field is the stream.
  - `log_event`, `log_port_errors_payload` and `log_trap_payload` are methods that append one `fprintf` at a time, as the C code does.
  - Each is proved to append exactly the text that `Events.EventLine` (or the payload's member list) says.

Where the code and the plugin's documentation differ, the model follows the code:

- The trap name is whatever the trap-name table returns: the code has no placeholder of its own for unknown traps.
- The payload is read through the untyped `event_data` argument without any test of its type, so a matching payload is a precondition (`Events.PayloadMatches`).
- Write errors are not checked by the code, and there is no locking.

The event ids are the enumerators of `osm_epi_event_id_t` numbered `0..10` in declaration order. The header that declares them is not part of this model.

## Model

| member | source | states |
|---|---|---|
| Events.EventIdToString | osmeventexportplugin/src/osmeventexportplugin.c:24-52 | the name is "UNKNOWN" exactly when the id is not one of the eleven known kinds |
| Events.KnownEventNames | osmeventexportplugin/src/osmeventexportplugin.c:26-48 | each of the eleven known ids maps to its own name, PORT_ERRORS through LFT_CHANGE |
| Events.EventNameText | osmeventexportplugin/src/osmeventexportplugin.c:24-52 | every id, unknown ones included, gets a non-empty name of upper-case letters and underscores (the switch is total) |
| Events.FindId | osmeventexportplugin/src/osmeventexportplugin.c:24-52 | a name found from position `from` on belongs to an id in `from..10` that has that name |
| Events.NameIdentifiesId | osmeventexportplugin/src/osmeventexportplugin.c:26-48 | names of distinct known ids differ: looking up the name of a known id gives that id back |
| Events.UnknownNamesNoId | osmeventexportplugin/src/osmeventexportplugin.c:49-50 | "UNKNOWN" is the name of no known id |
| Numerals.NumeralValue | osmeventexportplugin/src/osmeventexportplugin.c:57-71 | the digits printed for a number in base 2..16 read back as that number |
| Numerals.PaddedNumeral | osmeventexportplugin/src/osmeventexportplugin.c:56 | a number below base^width printed zero-padded to `width` is exactly `width` digits, and they read back as the number |
| Numerals.HexWidth16 | osmeventexportplugin/src/osmeventexportplugin.c:56 | `%016` with `PRIx64` of a 64-bit value is sixteen lower-case hex digits that read back as the value |
| Numerals.HexWidthOfOne | osmeventexportplugin/src/osmeventexportplugin.c:56 | the value 1 prints as fifteen zeros and a one |
| Payloads.GuidRendering | osmeventexportplugin/src/osmeventexportplugin.c:56 | the GUID text is 18 characters: `0x`, then sixteen hex digits that read back as the GUID |
| Payloads.GuidOfOne | osmeventexportplugin/src/osmeventexportplugin.c:56 | the GUID 1 renders as `0x0000000000000001` |
| Payloads.PortErrorsGuidValue | osmeventexportplugin/src/osmeventexportplugin.c:56 | the first port-errors member's value is that GUID text |
| Payloads.PortErrorsKeysOf | osmeventexportplugin/src/osmeventexportplugin.c:56-71 | the port-errors keys are the sixteen keys of the table, in order |
| Payloads.PortErrorsValueKinds | osmeventexportplugin/src/osmeventexportplugin.c:56-71 | sixteen members; the GUID and node name are strings (quoted); the port number and the thirteen counters, in print order, are numbers (bare decimal) |
| Payloads.PortErrorsPrinted | osmeventexportplugin/src/osmeventexportplugin.c:56-71 | the port-errors members, each led by a comma, are exactly the sixteen pieces the format strings print, in order; the first is led by `,` and all but the last end in `,` |
| Payloads.GenericTrapPrinted | osmeventexportplugin/src/osmeventexportplugin.c:76-82 | for a generic notice the trap members are exactly the three printed pieces: type, trap name, issuer LID |
| Payloads.VendorTrapPrinted | osmeventexportplugin/src/osmeventexportplugin.c:76-82 | for a vendor notice the trap members are exactly the two printed pieces: type, issuer LID |
| Payloads.TrapKeys | osmeventexportplugin/src/osmeventexportplugin.c:76-82 | the trap keys are type, trap name, issuer LID for a generic notice and type, issuer LID otherwise |
| Payloads.PortErrorsFieldsPlain | osmeventexportplugin/src/osmeventexportplugin.c:56-71 | when the node name needs no JSON escape, no key or string of the port-errors payload needs one |
| Payloads.TrapFieldsPlain | osmeventexportplugin/src/osmeventexportplugin.c:76-82 | when a generic notice's trap name needs no JSON escape, no key or string of the trap payload needs one |
| Clock.TimestampLayout | osmeventexportplugin/src/osmeventexportplugin.c:91-96 | for a four-digit year the timestamp is 27 characters with separators `- - T : : . Z` at fixed places, and each digit group reads back as its field, the last being exactly six digits of tv_usec |
| Clock.TimestampChars | osmeventexportplugin/src/osmeventexportplugin.c:93-96 | for any year, every timestamp character is a digit or one of `-T:.Z` |
| Json.ObjectRoundTrip | osmeventexportplugin/src/osmeventexportplugin.c:95-110 | reading back a printed object whose strings need no escapes gives its members, in order |
| Json.NoTrailingComma | osmeventexportplugin/src/osmeventexportplugin.c:71 | a printed object starts with `{`, ends with `}`, and has no comma before the `}` |
| Json.TailTextAppend | osmeventexportplugin/src/osmeventexportplugin.c:95-109 | printing the members after the first distributes over concatenating member lists |
| Lines.LineFraming | osmeventexportplugin/src/osmeventexportplugin.c:95-109 | the line is `{"timestamp":"<stamp>","event":"<name>"`, then the payload members each led by a comma, then `}` and a newline |
| Lines.NoPayloadOtherKinds | osmeventexportplugin/src/osmeventexportplugin.c:98-107 | every kind but port errors and traps, unknown ids included, has only the keys timestamp and event, and the line is exactly the head and `}\n` |
| Lines.PortErrorsKeyOrder | osmeventexportplugin/src/osmeventexportplugin.c:95-100 | a port-errors record's keys are timestamp, event, then the sixteen payload keys in table order |
| Lines.PortErrorsRecord | osmeventexportplugin/src/osmeventexportplugin.c:95-100 | a port-errors record has those keys, the event name PORT_ERRORS, then the port-errors members |
| Lines.TrapRecordKeys | osmeventexportplugin/src/osmeventexportplugin.c:102-103 | a trap record's keys are timestamp, event, payload_type, payload_trap_name (generic notice only), payload_issuer_lid |
| Lines.TrapNameKey | osmeventexportplugin/src/osmeventexportplugin.c:78-80 | payload_trap_name is among a trap record's keys if and only if the notice is generic |
| Lines.TrapRecordValues | osmeventexportplugin/src/osmeventexportplugin.c:76-82 | a trap record's event is TRAP; the type is "generic" or "vendor"; a generic notice's trap name is the table's name for its trap number; the issuer LID is the last value |
| Lines.LineRoundTrip | osmeventexportplugin/src/osmeventexportplugin.c:95-109 | when the printed names need no escapes, reading the line back gives the record's members, in order |
| Lines.SingleLine | osmeventexportplugin/src/osmeventexportplugin.c:109 | when the printed names hold no newline, the line ends in `}` and its only newline, with no comma before the `}` |
| Plugin.EventLogger.LogEvent | osmeventexportplugin/src/osmeventexportplugin.c:85-111 | the stream stays open and gains exactly the event's line: nothing else is written |
| Plugin.LogPortErrorsPayload | osmeventexportplugin/src/osmeventexportplugin.c:54-72 | the sixteen fprintf calls together append exactly the port-errors members, each led by a comma |
| Plugin.LogTrapPayload | osmeventexportplugin/src/osmeventexportplugin.c:74-83 | the two or three fprintf calls together append exactly the trap members, each led by a comma |
| Plugin.OutputFile | osmeventexportplugin/src/osmeventexportplugin.c:115-122 | the destination is the option string when it is given and not empty, "/var/log/opensm-events.log" otherwise |
| Plugin.OutputFileNonEmpty | osmeventexportplugin/src/osmeventexportplugin.c:115-122 | the destination is never empty |
| Plugin.Construct | osmeventexportplugin/src/osmeventexportplugin.c:113-137 | no logger if and only if malloc or fopen fails; otherwise a new logger whose new, open stream is on the chosen destination and holds what the file held |
| Plugin.Destroy | osmeventexportplugin/src/osmeventexportplugin.c:139-147 | for no logger nothing changes; otherwise the stream, if there is one, is closed and keeps what was written |
| Plugin.Report | osmeventexportplugin/src/osmeventexportplugin.c:149-153 | reporting an event appends exactly its line |

## Left out

- I/O errors: `fprintf`, `fflush` and `fopen` either succeed or, for `fopen`, fail as an input flag (`allocOk`, `openOk` stand for the results of malloc and fopen). A partial write or a failing flush is not modelled, nor is durability after `fflush`.
- The clock: `gettimeofday` and `gmtime` are not modelled. Their results are inputs: the UTC calendar fields, and microseconds below 1000000.
- strftime's 64-byte buffer is not modelled; the text it holds is at most 19 characters for a four-digit year.
- Clock.TimestampLayout: stated for four-digit years only. Other years print with `%Y`'s other width, and Clock.TimestampChars covers them.
- Byte order: `cl_ntoh64` and `cl_ntoh16` are not modelled. The GUID and issuer LID are taken as already in host order; the trap number is passed to the table as stored.
- The trap-name table `ib_get_trap_str` is a function parameter, and `ib_notice_is_generic` is a boolean field of the notice.
- The numeric ids of the event kinds are assumed to be `0..10` in declaration order; the header that defines them is not part of this model.
- JSON validity: the node name and the trap name are printed with no escaping. Json.ObjectRoundTrip, Lines.LineRoundTrip and Lines.SingleLine hold only under a precondition that those strings need no escape, or hold no newline.
- Host logging with `OSM_LOG` (open failure, destination chosen) is a side channel and not modelled. Neither is the plugin registration table with its version check.
- Plugin.Destroy: `free` is not modelled (nor in Plugin.Construct). A destroyed or failed logger is simply no longer used.
- Concurrency: the code has no locking and calls into the plugin are not modelled as concurrent.
