/**
 * Hand-offs between screens: what one screen passes in its arguments is
 * what the next screen reads back.
 */
module Flows {
  import opened Ui
  import ReportSelection
  import ManualReport
  import AIReport

  /** A category card opens a manual form whose category is that card's,
      one of the dropdown's entries, and which starts without images. */
  method OpenFormFromCard(card: ReportSelection.CategoryCard) returns (form: ManualReport.ManualReportForm)
    ensures form.categoryText == ReportSelection.CardCategory(card)
    ensures form.categoryText in ManualReport.Categories
    ensures form.toolbarTitle.Some? && form.selectedImages == []
  {
    var t := ReportSelection.OnClick(ReportSelection.Card(card));
    assert GetString(t.args, "preselected_image_uri").None? by {
      assert "preselected_image_uri" !in t.args;
    }
    form := new ManualReport.ManualReportForm.OnViewCreated(t.args);
  }

  /** Rejecting the AI's classification opens a manual form whose only image
      is the one the AI screen had selected, with no category chosen. */
  method OpenFormFromWrongAnswer(screen: AIReport.AIReportScreen) returns (form: ManualReport.ManualReportForm)
    ensures form.selectedImages == [AIReport.UriText(screen.selectedImageUri)]
    ensures form.categoryText == "" && form.toolbarTitle.None?
  {
    var _, t := screen.OnWrong();
    assert GetString(t.args, "category").None? by {
      assert "category" !in t.args;
    }
    form := new ManualReport.ManualReportForm.OnViewCreated(t.args);
  }
}
