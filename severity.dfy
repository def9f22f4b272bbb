/** The closed set of severities an event can carry, with their wire strings. */
module Severities {
  import opened Wrappers

  /** `enum Severity: String { case error, warning, info }` */
  datatype Severity = Error | Warning | Info {
    /** The raw string of each case is its own name. */
    function RawValue(): (s: string)
      ensures s in {"error", "warning", "info"}
    {
      match this
      case Error => "error"
      case Warning => "warning"
      case Info => "info"
    }
  }

  /** The failable initialiser `Severity(rawValue:)` every String enum has. */
  function SeverityFromRaw(raw: string): (r: Option<Severity>)
    ensures r.Some? ==> r.value.RawValue() == raw
    ensures r.None? <==> raw !in {"error", "warning", "info"}
  {
    if raw == "error" then Some(Error)
    else if raw == "warning" then Some(Warning)
    else if raw == "info" then Some(Info)
    else None
  }

  /** Decoding a severity's wire string gives the severity back, so the three
      raw strings are distinct. */
  lemma RawValueRoundTrip(s: Severity)
    ensures SeverityFromRaw(s.RawValue()) == Some(s)
  {
    match s
    case Error =>
    case Warning =>
    case Info =>
  }

  /** Two severities with the same wire string are the same severity. */
  lemma RawValueInjective(s: Severity, t: Severity)
    requires s.RawValue() == t.RawValue()
    ensures s == t
  {
    RawValueRoundTrip(s);
    RawValueRoundTrip(t);
  }
}
