/**
 * The security banner of the email view: a loading notice, an "analysis
 * unavailable" alert when there is no analysis, or a verdict banded by the
 * phishing score, with a button to report a false positive on any verdict
 * other than "safe".
 */
module PhishingIndicator {
  import opened Wrappers

  /**
   * The analysis as received. A missing or non-numeric score compares false
   * against both thresholds; a missing reason list shows no list.
   */
  datatype PhishingData = PhishingData(isPhishing: bool, score: Option<real>, reasons: Option<seq<string>>)

  datatype Variant = Default | Warning | Destructive

  /** The body of `POST /api/feedback`. */
  datatype FeedbackPost = FeedbackPost(messageId: string, feedbackType: string, details: string)

  const FalsePositive: string := "false_positive"
  const FalsePositiveDetails: string := "User reported phishing detection as a false positive."

  const SafeTitle: string := "Este e-mail parece seguro"
  const WarningTitle: string := "Potencial Phishing: Tenha Cuidado"
  const DangerTitle: string := "Alerta de Phishing: Perigo Alto!"
  const UnavailableTitle: string := "Análise de Segurança Indisponível"

  datatype PhishingView =
    | Analysing
    | Unavailable(variant: Variant, title: string)
    | Verdict(variant: Variant, title: string, reasons: seq<string>, report: Option<FeedbackPost>)

  /** The score band: above 0.8 is danger, above 0.5 is a warning, anything else is safe. */
  function Band(score: Option<real>): (v: Variant)
    ensures v == Destructive <==> score.Some? && score.value > 0.8
    ensures v == Warning <==> score.Some? && 0.5 < score.value <= 0.8
    ensures v == Default <==> score.None? || score.value <= 0.5
  {
    if score.Some? && score.value > 0.8 then Destructive
    else if score.Some? && score.value > 0.5 then Warning
    else Default
  }

  function Title(v: Variant): string {
    match v
    case Destructive => DangerTitle
    case Warning => WarningTitle
    case Default => SafeTitle
  }

  /** How alarming a variant is. */
  function Severity(v: Variant): nat {
    match v
    case Default => 0
    case Warning => 1
    case Destructive => 2
  }

  function Render(data: Option<PhishingData>, isLoading: bool, messageId: string): (r: PhishingView)
    ensures isLoading <==> r.Analysing?
    ensures !isLoading && data.None? <==> r.Unavailable?
    ensures r.Unavailable? ==> r.variant == Destructive && r.title == UnavailableTitle && r.title != SafeTitle
    ensures r.Verdict? ==> r.variant == Band(data.value.score) && r.title == Title(r.variant)
    ensures r.Verdict? ==> r.reasons == data.value.reasons.GetOr([])
    ensures r.Verdict? ==> (r.report.Some? <==> r.variant != Default)
    ensures r.Verdict? && r.report.Some? ==>
              r.report.value == FeedbackPost(messageId, FalsePositive, FalsePositiveDetails)
  {
    if isLoading then Analysing
    else if data.None? then Unavailable(Destructive, UnavailableTitle)
    else
      var variant := Band(data.value.score);
      var shown := if data.value.reasons.Some? && |data.value.reasons.value| > 0 then data.value.reasons.value else [];
      var report := if variant != Default then Some(FeedbackPost(messageId, FalsePositive, FalsePositiveDetails)) else None;
      Verdict(variant, Title(variant), shown, report)
  }

  /** A higher score never gives a less alarming banner. */
  lemma BandMonotone(a: real, b: real)
    requires a <= b
    ensures Severity(Band(Some(a))) <= Severity(Band(Some(b)))
  {
  }

  /** The thresholds themselves fall in the lower band: 0.8 warns, 0.5 is safe. */
  lemma BandBoundaries()
    ensures Band(Some(0.8)) == Warning && Band(Some(0.5)) == Default
  {
  }

  /** No analysis is never presented as safe: the titles and variants differ. */
  lemma UnavailableIsNotSafe(messageId: string, score: Option<real>, reasons: Option<seq<string>>)
    ensures Render(None, false, messageId) != Render(Some(PhishingData(false, score, reasons)), false, messageId)
    ensures Render(None, false, messageId).variant != Default
  {
  }
}
