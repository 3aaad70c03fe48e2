/**
 * The per-record rewrite done by `exportLogs` before a record is sent: the
 * type code is kept in `type_code` and `type` becomes the event name, long
 * `details` are cut to what Azure Log Analytics accepts, and the parsed user
 * agent is written out, with a "Generic Smartphone" device replaced by the OS.
 */
module Transform {
  import opened Wrappers
  import opened JsText
  import opened LogRecords
  import opened LogTypes

  /** Azure Log Analytics' maximum length for `details`. */
  const MaxDetailsLength := 32000
  const Ellipsis := "..."
  const GenericSmartphone := "Generic Smartphone"

  /**
   * `type` after the lookup in `logTypes`: the event name for a known code, the
   * code itself otherwise. The catalog is a parameter; the export uses `Catalog()`.
   */
  function EventName(code: string, types: map<string, EventType>): string {
    if code in types then types[code].event else code
  }

  /** `details.substring(0, 32000) + '...'` when longer than 32000 characters. */
  function TruncateText(s: string): (r: string)
    ensures |r| <= MaxDetailsLength + |Ellipsis|
  {
    if |s| > MaxDetailsLength then s[..MaxDetailsLength] + Ellipsis else s
  }

  /**
   * `record.details && record.details.length > 32000`: only a non-empty string
   * longer than 32000 characters is cut. Absent details and other JSON values are
   * left alone; an array of more than 32000 elements, which makes `substring`
   * throw, is not modelled.
   */
  function TruncateDetails(d: Details): Details {
    if d.Text? && d.text != [] && |d.text| > MaxDetailsLength then Text(TruncateText(d.text)) else d
  }

  /** `record.device && record.device.indexOf('Generic Smartphone') >= 0`. */
  predicate IsGenericDevice(device: string) {
    device != "" && IndexOf(device, GenericSmartphone) >= 0
  }

  /**
   * The body of the `exportLogs` loop for one record, given what the user-agent
   * parser returned: `type_code` and `type`, then `details`, then the four parsed
   * strings, with the device pair taken from the OS pair for a generic smartphone.
   * Each field is written once, with the value it holds when the loop body ends.
   */
  function TransformRecord(r: LogRecord, agent: UserAgent, types: map<string, EventType>): LogRecord {
    var generic := IsGenericDevice(agent.device);
    r.(typeCode := Some(r.logType), logType := EventName(r.logType, types),
       details := TruncateDetails(r.details),
       os := Some(agent.os), osVersion := Some(agent.osVersion),
       device := Some(if generic then agent.os else agent.device),
       deviceVersion := Some(if generic then agent.osVersion else agent.deviceVersion))
  }

  /**
   * The original code survives in `type_code`, and the fields Auth0 set other
   * than `type` and `details` are kept, every property the exporter does not
   * read among them.
   */
  lemma TransformKeepsOriginal(r: LogRecord, agent: UserAgent, types: map<string, EventType>)
    ensures var t := TransformRecord(r, agent, types);
      && t.typeCode == Some(r.logType)
      && t.id == r.id && t.date == r.date && t.userAgent == r.userAgent
      && t.others == r.others
  {
  }

  /** `type` is rewritten exactly for catalog codes; an unknown code passes through unchanged. */
  lemma TransformRenamesKnownCodes(r: LogRecord, agent: UserAgent, types: map<string, EventType>)
    ensures var t := TransformRecord(r, agent, types);
      && (r.logType in types ==> t.logType == types[r.logType].event)
      && (r.logType !in types ==> t.logType == r.logType)
  {
  }

  /**
   * Details of at most 32000 characters, and details that are not a string, are
   * unchanged; longer text keeps its first 32000 characters followed by "...",
   * 32003 characters in all.
   */
  lemma TransformTruncatesDetails(r: LogRecord, agent: UserAgent, types: map<string, EventType>)
    ensures var t := TransformRecord(r, agent, types);
      && (!r.details.Text? ==> t.details == r.details)
      && (r.details.Text? && |r.details.text| <= MaxDetailsLength ==> t.details == r.details)
      && (r.details.Text? && |r.details.text| > MaxDetailsLength ==>
            t.details.Text? && |t.details.text| == MaxDetailsLength + 3
            && t.details.text[..MaxDetailsLength] == r.details.text[..MaxDetailsLength]
            && t.details.text[MaxDetailsLength..] == Ellipsis)
  {
  }

  /** Truncated text is short enough already: truncating it again changes nothing. */
  lemma TruncateIdempotent(s: string)
    ensures TruncateText(TruncateText(s)) == TruncateText(s)
  {
    if |s| > MaxDetailsLength {
      var r := TruncateText(s);
      assert r[..MaxDetailsLength] == s[..MaxDetailsLength];
    }
  }

  /** The OS fields are the parser's; the device fields are the OS's for a generic smartphone, else the parser's. */
  lemma TransformDevice(r: LogRecord, agent: UserAgent, types: map<string, EventType>)
    ensures var t := TransformRecord(r, agent, types);
      && t.os == Some(agent.os) && t.osVersion == Some(agent.osVersion)
      && (Contains(agent.device, GenericSmartphone) ==>
            t.device == Some(agent.os) && t.deviceVersion == Some(agent.osVersion))
      && (!Contains(agent.device, GenericSmartphone) ==>
            t.device == Some(agent.device) && t.deviceVersion == Some(agent.deviceVersion))
  {
    if Contains(agent.device, GenericSmartphone) {
      assert agent.device != "" by {
        var j :| OccursAt(agent.device, GenericSmartphone, j);
      }
    }
  }

  /** "Generic Smartphone" never remains in `device` unless the OS string itself contains it. */
  lemma TransformHidesGenericDevice(r: LogRecord, agent: UserAgent, types: map<string, EventType>)
    ensures var t := TransformRecord(r, agent, types);
      t.device.Some? && (Contains(t.device.value, GenericSmartphone) ==> Contains(agent.os, GenericSmartphone))
  {
    TransformDevice(r, agent, types);
  }
}
