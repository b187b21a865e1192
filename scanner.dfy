/** The shapes of the scanner's output that the report pipeline consumes
    (`ScanAlert` and `ScanResult` of src/lib/scanner.ts). */
module Scanner {
  import opened Wrappers

  /** A free-text field of an alert. The interface declares it a string, but the
      summariser reads it through optional chaining, so an absent value is modelled. */
  type Field = Option<string>

  /** One alert: its name, its risk string as the scanner reports it, and its texts. */
  datatype ScanAlert = ScanAlert(alert: string, risk: string, description: Field, solution: Field)

  /** The scanned URL and the alerts found for it, in the scanner's order. */
  datatype ScanResult = ScanResult(url: string, alerts: seq<ScanAlert>)
}
