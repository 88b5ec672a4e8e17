/** Option, for results that may be absent (a state that was never set, a nil client). */
module Wrappers {
  datatype Option<+T> = None | Some(value: T)
}

/**
 The fixed guidance texts the provider attaches to its configuration
 diagnostics. A diagnostic refers to one by its topic; Text spells it out.
 */
module Guidance {
  datatype Topic = KnownHostRequired | KnownApiKeyRequired | HostRequired | ApiKeyRequired | ClientCreateFailed

  function Text(t: Topic): string {
    match t
    case KnownHostRequired =>
      "The provider requires a known value for the Pterodactyl Panel host. Set the host value in the configuration or use the PTERODACTYL_HOST environment variable."
    case KnownApiKeyRequired =>
      "The provider requires a known value for the Pterodactyl Panel API key. Set the api_key value in the configuration or use the PTERODACTYL_API_KEY environment variable."
    case HostRequired =>
      "The provider cannot create the Pterodactyl Panel client as there is a missing or empty value for the Pterodactyl Panel host. Set the host value in the configuration or use the PTERODACTYL_HOST environment variable. If either is already set, ensure the value is not empty."
    case ApiKeyRequired =>
      "The provider cannot create the Pterodactyl Panel client as there is a missing or empty value for the Pterodactyl Panel API key. Set the api_key value in the configuration or use the PTERODACTYL_API_KEY environment variable. If either is already set, ensure the value is not empty."
    case ClientCreateFailed =>
      "An unexpected error occurred when creating the Pterodactyl API client. If the error is not clear, please contact the provider developers.\n\nPterodactyl Client Error: "
  }
}

/**
 The parts of the Terraform plugin framework the data sources and the provider
 touch: attribute values that may be null or unknown, fixed-width integers, and
 the diagnostics a response accumulates.
 */
module Framework {
  import opened Wrappers
  import Guidance

  newtype int32 = x: int | -0x8000_0000 <= x < 0x8000_0000
  newtype int64 = x: int | -0x8000_0000_0000_0000 <= x < 0x8000_0000_0000_0000

  /**
   A framework attribute value (types.String, types.Int32, ...). The zero
   value of every framework value type is Null.
   */
  datatype Value<T> = Null | Unknown | Known(v: T) {
    predicate IsNull() { Null? }
    predicate IsUnknown() { Unknown? }

    /** ValueString(), ValueInt32(), ...: the known value, or the type's zero value when null or unknown. */
    function ValueOr(zero: T): T { if Known? then v else zero }
  }

  datatype Severity = SeverityError | SeverityWarning

  /** A diagnostic's detail: a text as given, or a fixed guidance text followed by `suffix`. */
  datatype Detail = Text(text: string) | Guided(topic: Guidance.Topic, suffix: string) {
    function Render(): string {
      match this
      case Text(text) => text
      case Guided(topic, suffix) => Guidance.Text(topic) + suffix
    }
  }

  /** One entry of a response's Diagnostics; `path` is the attribute path of AddAttributeError. */
  datatype Diagnostic = Diagnostic(severity: Severity, summary: string, detail: Detail, path: Option<string>)

  /** Diagnostics.AddError */
  function Error(summary: string, detail: string): Diagnostic {
    Diagnostic(SeverityError, summary, Text(detail), None)
  }

  /** Diagnostics.AddError with a detail that starts with a guidance text */
  function GuidedError(summary: string, topic: Guidance.Topic, suffix: string): Diagnostic {
    Diagnostic(SeverityError, summary, Guided(topic, suffix), None)
  }

  /** Diagnostics.AddAttributeError with path.Root(attr) and a guidance text as detail */
  function GuidedAttributeError(attr: string, summary: string, topic: Guidance.Topic): Diagnostic {
    Diagnostic(SeverityError, summary, Guided(topic, ""), Some(attr))
  }

  /** Diagnostics.HasError */
  predicate HasError(ds: seq<Diagnostic>) {
    exists d :: d in ds && d.severity == SeverityError
  }

  /** Appending error diagnostics leaves HasError true; appending nothing leaves it as it was. */
  lemma HasErrorAppend(ds: seq<Diagnostic>, more: seq<Diagnostic>)
    requires forall d :: d in more ==> d.severity == SeverityError
    ensures HasError(ds + more) <==> HasError(ds) || more != []
  {
    if more != [] {
      assert more[0] in ds + more;
    }
    if HasError(ds + more) && !HasError(ds) {
      var d :| d in ds + more && d.severity == SeverityError;
      assert d in more;
    }
  }
}
