/**
 * The AI-assisted report: one photo is classified by a remote model, the
 * user confirms or rejects the proposed title, description and category,
 * and a confirmed report only needs an address with captured coordinates.
 */
module AIReport {
  import opened Wrappers
  import opened Text
  import opened Models
  import opened Ui
  import ManualReport

  type Uri = ManualReport.Uri

  const PleaseAddLocation := "Please add location"
  const CoordinatesUnavailable := "Location coordinates not available"
  const SubmittedText := "Report submitted successfully!"
  const RedirectText := "Redirecting to manual report"

  /** `Uri?.toString()`: the string form of the image, or "null". */
  function UriText(uri: Option<Uri>): (s: string)
    ensures uri.Some? ==> s == uri.value
    ensures uri.None? ==> s == "null"
  {
    match uri
    case Some(u) => u
    case None => "null"
  }

  /** What pressing submit leads to, from the address field's raw text and
      the captured coordinates: the address is checked first, then the
      coordinates; nothing is sent either way. */
  function SubmitOutcome(locationText: string, coordinates: Option<Coordinates>): (r: Result<(), string>)
    ensures r.Err? && r.error == PleaseAddLocation <==> IsBlank(locationText)
    ensures r.Err? && r.error == CoordinatesUnavailable <==> !IsBlank(locationText) && coordinates.None?
    ensures r.Ok? <==> !IsBlank(locationText) && coordinates.Some?
  {
    TrimEmptyIffBlank(locationText);
    if Trim(locationText) == [] then Err(PleaseAddLocation)
    else if coordinates.None? then Err(CoordinatesUnavailable)
    else Ok(())
  }

  class AIReportScreen {
    var selectedImageUri: Option<Uri>
    var detectedTitle: string
    var detectedDescription: string
    var detectedCategory: string
    var currentLocation: Option<Coordinates>
    /** The address field's raw text. */
    var locationText: string
    var placeholderVisible: Visibility
    var loadingVisible: Visibility
    var resultsVisible: Visibility
    var locationControlsVisible: Visibility
    var submitVisible: Visibility

    /** The screen as it opens: no image, nothing detected. */
    constructor OnViewCreated()
      ensures selectedImageUri.None? && currentLocation.None?
      ensures detectedTitle == "" && detectedDescription == "" && detectedCategory == ""
      ensures locationText == ""
      ensures placeholderVisible == loadingVisible == resultsVisible == AsInLayout
      ensures locationControlsVisible == submitVisible == AsInLayout
    {
      selectedImageUri, currentLocation := None, None;
      detectedTitle, detectedDescription, detectedCategory := "", "", "";
      locationText := "";
      placeholderVisible, loadingVisible, resultsVisible := AsInLayout, AsInLayout, AsInLayout;
      locationControlsVisible, submitVisible := AsInLayout, AsInLayout;
    }

    /** An image arrived (a photo taken, or a gallery pick): it becomes the
        selected image, the placeholder goes and the loading overlay shows
        while the image is analysed. */
    method OnImageSelected(uri: Uri)
      modifies this
      ensures selectedImageUri == Some(uri)
      ensures placeholderVisible == Gone && loadingVisible == Visible
      ensures detectedTitle == old(detectedTitle) && detectedDescription == old(detectedDescription)
      ensures detectedCategory == old(detectedCategory) && resultsVisible == old(resultsVisible)
      ensures currentLocation == old(currentLocation) && locationText == old(locationText)
      ensures locationControlsVisible == old(locationControlsVisible) && submitVisible == old(submitVisible)
    {
      selectedImageUri := Some(uri);
      placeholderVisible := Gone;
      loadingVisible := Visible;
    }

    /** The camera's result: only a photo that was actually taken is
        selected (and then analysed). */
    method OnCameraResult(success: bool, photo: Option<Uri>) returns (analyse: bool)
      modifies this
      ensures analyse <==> success && photo.Some?
      ensures analyse ==> selectedImageUri == photo && loadingVisible == Visible && placeholderVisible == Gone
      ensures !analyse ==> selectedImageUri == old(selectedImageUri) && loadingVisible == old(loadingVisible)
                           && placeholderVisible == old(placeholderVisible)
      ensures detectedTitle == old(detectedTitle) && detectedDescription == old(detectedDescription)
      ensures detectedCategory == old(detectedCategory) && currentLocation == old(currentLocation)
      ensures locationText == old(locationText) && resultsVisible == old(resultsVisible)
      ensures locationControlsVisible == old(locationControlsVisible) && submitVisible == old(submitVisible)
    {
      analyse := success && photo.Some?;
      if analyse {
        OnImageSelected(photo.value);
      }
    }

    /** The gallery's result: a picked image is selected (and then
        analysed); backing out of the picker changes nothing. */
    method OnGalleryResult(picked: Option<Uri>) returns (analyse: bool)
      modifies this
      ensures analyse <==> picked.Some?
      ensures analyse ==> selectedImageUri == picked && loadingVisible == Visible && placeholderVisible == Gone
      ensures !analyse ==> selectedImageUri == old(selectedImageUri) && loadingVisible == old(loadingVisible)
                           && placeholderVisible == old(placeholderVisible)
      ensures detectedTitle == old(detectedTitle) && detectedDescription == old(detectedDescription)
      ensures detectedCategory == old(detectedCategory) && currentLocation == old(currentLocation)
      ensures locationText == old(locationText) && resultsVisible == old(resultsVisible)
      ensures locationControlsVisible == old(locationControlsVisible) && submitVisible == old(submitVisible)
    {
      analyse := picked.Some?;
      if analyse {
        OnImageSelected(picked.value);
      }
    }

    /** The model's answer. The overlay goes away on every path; the three
        detected fields are replaced together, and the results shown, only
        for a successful answer with a body. Otherwise they are kept and the
        failure is reported. */
    method OnAnalysisResult(response: Call<ClassificationResult>) returns (toast: Option<string>)
      modifies this
      ensures loadingVisible == Gone
      ensures response.HasBody() ==>
                detectedTitle == response.body.value.title
                && detectedDescription == response.body.value.description
                && detectedCategory == response.body.value.category
                && resultsVisible == Visible && toast.None?
      ensures !response.HasBody() ==>
                detectedTitle == old(detectedTitle) && detectedDescription == old(detectedDescription)
                && detectedCategory == old(detectedCategory) && resultsVisible == old(resultsVisible)
      ensures response.Answered? && !response.HasBody() ==>
                toast == Some("Failed to analyze image: " + response.message)
      ensures response.Threw? ==> toast == Some("Error analyzing image: " + response.error)
      ensures selectedImageUri == old(selectedImageUri) && currentLocation == old(currentLocation)
      ensures locationText == old(locationText) && placeholderVisible == old(placeholderVisible)
      ensures locationControlsVisible == old(locationControlsVisible) && submitVisible == old(submitVisible)
    {
      loadingVisible := Gone;
      if response.Threw? {
        toast := Some("Error analyzing image: " + response.error);
      } else if response.HasBody() {
        var result := response.body.value;
        detectedTitle := result.title;
        detectedDescription := result.description;
        detectedCategory := result.category;
        resultsVisible := Visible;
        toast := None;
      } else {
        toast := Some("Failed to analyze image: " + response.message);
      }
    }

    /** "Correct": the address field and the submit button appear; nothing
        else changes. */
    method OnCorrect()
      modifies this
      ensures locationControlsVisible == Visible && submitVisible == Visible
      ensures selectedImageUri == old(selectedImageUri) && currentLocation == old(currentLocation)
      ensures detectedTitle == old(detectedTitle) && detectedDescription == old(detectedDescription)
      ensures detectedCategory == old(detectedCategory) && locationText == old(locationText)
      ensures loadingVisible == old(loadingVisible) && resultsVisible == old(resultsVisible)
      ensures placeholderVisible == old(placeholderVisible)
    {
      locationControlsVisible := Visible;
      submitVisible := Visible;
    }

    /** "Wrong": the manual form opens with the selected image's string form
        (which is "null" when there is none) as its preselected image. */
    method OnWrong() returns (toast: string, t: Transition)
      ensures toast == RedirectText
      ensures t == Open(ManualReport, map["preselected_image_uri" := StrArg(UriText(selectedImageUri))], true)
    {
      toast := RedirectText;
      t := Open(ManualReport, map["preselected_image_uri" := StrArg(UriText(selectedImageUri))], true);
    }

    /** A location fix: the coordinates are kept, and the address field
        shows the geocoded address line, or the coordinates as text when
        geocoding failed. */
    method OnLocationFix(coordinates: Coordinates, geocoded: ManualReport.GeocodeResult)
      modifies this
      ensures currentLocation == Some(coordinates)
      ensures locationText == match geocoded
                              case AddressLine(line) => line
                              case NoAddress => old(locationText)
                              case GeocoderFailed(text) => text
      ensures selectedImageUri == old(selectedImageUri) && detectedTitle == old(detectedTitle)
      ensures detectedDescription == old(detectedDescription) && detectedCategory == old(detectedCategory)
      ensures placeholderVisible == old(placeholderVisible) && loadingVisible == old(loadingVisible)
      ensures resultsVisible == old(resultsVisible) && locationControlsVisible == old(locationControlsVisible)
      ensures submitVisible == old(submitVisible)
    {
      currentLocation := Some(coordinates);
      match geocoded
      case AddressLine(line) => locationText := line;
      case NoAddress =>
      case GeocoderFailed(text) => locationText := text;
    }

    /** Submit: a blank address is reported first, then missing coordinates;
        otherwise success is reported and the screen is popped. Nothing is
        sent and no field changes. */
    method SubmitReport() returns (toast: string, popped: bool)
      ensures var r := SubmitOutcome(locationText, currentLocation);
              && (popped <==> r.Ok?)
              && toast == (if r.Ok? then SubmittedText else r.error)
    {
      var r := SubmitOutcome(locationText, currentLocation);
      if r.Err? {
        toast, popped := r.error, false;
        return;
      }
      toast, popped := SubmittedText, true;
    }
  }
}
