/**
 * The dict every data validator's `validate` returns: the keys 'info',
 * 'warnings' and 'errors', each holding a list of messages.
 */
module ValidationReport {

  datatype Report = Report(info: seq<string>, warnings: seq<string>, errors: seq<string>)
}
