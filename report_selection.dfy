/**
 * The "report an issue" chooser: a back button, the AI report card, and one
 * card per complaint category that opens the manual form with that category
 * preselected.
 */
module ReportSelection {
  import opened Ui
  import ManualReport

  /** The seven category cards. */
  datatype CategoryCard =
    | AdminCivic | CitizenSafety | InfrastructureCard | PublicUtilities
    | TrafficTransport | EnvironmentCard | Others

  /** Everything on the screen that reacts to a click. */
  datatype Control = Back | AiReportCard | Card(card: CategoryCard)

  /** The category string each card passes on. */
  function CardCategory(card: CategoryCard): (category: string)
    ensures category in ManualReport.Categories
    ensures card == AdminCivic ==> category == "Administrative & Civic Services"
    ensures card == CitizenSafety ==> category == "Citizen & Safety"
    ensures card == InfrastructureCard ==> category == "Infrastructure"
    ensures card == PublicUtilities ==> category == "Public Utilities"
    ensures card == TrafficTransport ==> category == "Traffic/Transport"
    ensures card == EnvironmentCard ==> category == "Environment & Public Spaces"
    ensures card == Others ==> category == "Other"
  {
    match card
    case AdminCivic => "Administrative & Civic Services"
    case CitizenSafety => "Citizen & Safety"
    case InfrastructureCard => "Infrastructure"
    case PublicUtilities => "Public Utilities"
    case TrafficTransport => "Traffic/Transport"
    case EnvironmentCard => "Environment & Public Spaces"
    case Others => "Other"
  }

  /** What a click does: back pops the stack, the AI card opens the AI
      report without arguments, and a category card opens the manual form
      with the single argument "category"; both openings go on the back
      stack. */
  function OnClick(control: Control): (t: Transition)
    ensures control == Back <==> t == PopBackStack
    ensures control == AiReportCard <==> t.Open? && t.target == AIReport
    ensures control == AiReportCard ==> t.args == map[] && t.addToBackStack
    ensures control.Card? <==> t.Open? && t.target == ManualReport
    ensures control.Card? ==> t.args.Keys == {"category"} && GetString(t.args, "category").Some?
                              && GetString(t.args, "category").value in ManualReport.Categories
                              && t.addToBackStack
  {
    match control
    case Back => PopBackStack
    case AiReportCard => Open(AIReport, map[], true)
    case Card(card) => Open(ManualReport, map["category" := StrArg(CardCategory(card))], true)
  }

  /** Different cards pass different categories. */
  lemma CardCategoryInjective(a: CategoryCard, b: CategoryCard)
    ensures CardCategory(a) == CardCategory(b) <==> a == b
  {
  }

  /** Every entry of the manual form's dropdown has its card. */
  lemma EveryCategoryHasACard(category: string)
    requires category in ManualReport.Categories
    ensures exists card :: CardCategory(card) == category
  {
    var i :| 0 <= i < |ManualReport.Categories| && ManualReport.Categories[i] == category;
    var cards := [AdminCivic, CitizenSafety, InfrastructureCard, PublicUtilities,
                  TrafficTransport, EnvironmentCard, Others];
    assert CardCategory(cards[i]) == category;
  }
}
