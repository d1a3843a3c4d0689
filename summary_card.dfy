/**
 * The AI summary card: the summary text, the suggested action's label (with a
 * fallback for unknown actions), the deadline when there is one, and three
 * buttons that are disabled while authentication is loading.
 */
module SummaryCard {
  import opened Wrappers

  datatype SummaryData = SummaryData(text: string, action: string, deadline: Option<string>, generatedAt: string)

  /** `actionTextMap`. */
  const ActionText: map<string, string> := map[
    "pay" := "Pagar fatura",
    "reply" := "Responder",
    "schedule" := "Agendar reunião",
    "review" := "Revisar documento",
    "none" := "Nenhuma ação sugerida"]

  const FallbackLabel: string := "Ação Sugerida"

  /** `actionTextMap[action] || "Ação Sugerida"`. */
  function ActionLabel(action: string): (r: string)
    ensures r != ""
    ensures action in ActionText ==> r == ActionText[action]
    ensures r == FallbackLabel <==> action !in ActionText
  {
    if action in ActionText && ActionText[action] != "" then ActionText[action] else FallbackLabel
  }

  datatype SummaryView =
    | Skeleton
    | Hidden
    | Card(text: string, actionLabel: string, deadline: Option<string>, buttonsEnabled: bool)

  function Render(summary: Option<SummaryData>, isLoading: bool, authLoading: bool): (r: SummaryView)
    ensures isLoading <==> r.Skeleton?
    ensures r.Hidden? <==> !isLoading && summary.None?
    ensures r.Card? ==> r.text == summary.value.text && r.actionLabel == ActionLabel(summary.value.action)
    ensures r.Card? ==> (r.deadline.Some? <==> Truthy(summary.value.deadline))
    ensures r.Card? && r.deadline.Some? ==> r.deadline == summary.value.deadline
    ensures r.Card? ==> (r.buttonsEnabled <==> !authLoading)
  {
    if isLoading then Skeleton
    else if summary.None? then Hidden
    else
      var s := summary.value;
      Card(s.text, ActionLabel(s.action), if Truthy(s.deadline) then s.deadline else None, !authLoading)
  }

  /** The known labels are all distinct from each other and from the fallback. */
  lemma LabelsDistinguishActions(a: string, b: string)
    requires a in ActionText && b in ActionText && a != b
    ensures ActionLabel(a) != ActionLabel(b)
  {
  }
}
