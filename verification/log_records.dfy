/** The data model shared by the fetcher, the transformer and the exporter. */
module LogRecords {
  import opened Wrappers

  /** The saved checkpoint: the `_id` of the last log fetched, or None (`null`) before the first run. */
  type Cursor = Option<string>

  /**
   * A log's `details`: absent, a string (which is truncated when longer than
   * 32000 characters), or any other JSON value, carried as its JSON text, which
   * the exporter leaves alone. An object, a number or a boolean has no `length`;
   * an array does, and one of more than 32000 elements is not modelled (it makes
   * `substring` throw).
   */
  datatype Details = NoDetails | Text(text: string) | Structured(json: string)

  /** A property of a record that the exporter passes through: its name and the JSON text of its value. */
  datatype Property = Property(name: string, json: string)

  /** The four strings read off `useragent.parse(record.user_agent)`. */
  datatype UserAgent = UserAgent(os: string, osVersion: string, device: string, deviceVersion: string)

  /**
   * An Auth0 log record. `id`, `date`, `logType` (Auth0's `type` code), `details`
   * and `userAgent` come from Auth0; `others` holds every other property Auth0
   * sent (`ip`, `user_id`, `client_id`, `connection`, ...), in the order
   * `JSON.stringify` writes them, each with the JSON text of its value, which
   * the exporter never reads; the optional
   * fields are the ones the exporter adds (`type_code`, `os`, `os_version`,
   * `device`, `device_version`).
   */
  datatype LogRecord = LogRecord(
    id: string,
    date: string,
    logType: string,
    details: Details,
    userAgent: string,
    others: seq<Property>,
    typeCode: Option<string>,
    os: Option<string>,
    osVersion: Option<string>,
    device: Option<string>,
    deviceVersion: Option<string>)
}
