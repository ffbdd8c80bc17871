/**
 * The manual report form: a category (from a fixed dropdown), a title, a
 * description, an address with captured coordinates, and up to five images
 * from the camera or the gallery.
 */
module ManualReport {
  import opened Wrappers
  import opened Text
  import opened Seqs
  import opened Models
  import opened Ui
  import Validation

  /** An image reference as its string form. */
  type Uri = string

  /** The form holds at most this many images. */
  const MaxImages := 5

  const MaxImagesText := "Maximum 5 images allowed"

  /** The category dropdown, in display order. */
  const Categories: seq<string> := [
    "Administrative & Civic Services",
    "Citizen & Safety",
    "Infrastructure",
    "Public Utilities",
    "Traffic/Transport",
    "Environment & Public Spaces",
    "Other"
  ]

  lemma CategoriesDistinct()
    ensures |Categories| == 7
    ensures forall i, j :: 0 <= i < j < |Categories| ==> Categories[i] != Categories[j]
  {
  }

  /** The form's checks, each with what it reports. */
  datatype ReportError =
    | CategoryMissing | TitleMissing | DescriptionMissing | LocationMissing
    | CoordinatesMissing | NoImages

  function ReportErrorText(e: ReportError): string {
    match e
    case CategoryMissing => "Please select a category"
    case TitleMissing => "Title is required"
    case DescriptionMissing => "Description is required"
    case LocationMissing => "Location is required"
    case CoordinatesMissing => "Please capture location"
    case NoImages => "Please add at least one image"
  }

  /** `validateAndSubmit`'s `when`: category, title, description and address
      (all already trimmed), then the captured coordinates, then at least one
      image; the first failure is the one reported. */
  function ValidateReport(category: string, title: string, description: string, location: string,
                          hasCoordinates: bool, imageCount: nat): (r: Option<ReportError>)
    ensures r.None? <==> category != "" && title != "" && description != "" && location != ""
                         && hasCoordinates && imageCount > 0
  {
    if category == "" then Some(CategoryMissing)
    else if title == "" then Some(TitleMissing)
    else if description == "" then Some(DescriptionMissing)
    else if location == "" then Some(LocationMissing)
    else if !hasCoordinates then Some(CoordinatesMissing)
    else if imageCount == 0 then Some(NoImages)
    else None
  }

  /** The same checks as an ordered list. */
  function ReportChecks(category: string, title: string, description: string, location: string,
                        hasCoordinates: bool, imageCount: nat): seq<Validation.Check<ReportError>>
  {
    [Validation.Check(category != "", CategoryMissing),
     Validation.Check(title != "", TitleMissing),
     Validation.Check(description != "", DescriptionMissing),
     Validation.Check(location != "", LocationMissing),
     Validation.Check(hasCoordinates, CoordinatesMissing),
     Validation.Check(imageCount > 0, NoImages)]
  }

  /** The form reports exactly the first failing check. */
  lemma ReportValidationIsFirstFailure(category: string, title: string, description: string, location: string,
                                       hasCoordinates: bool, imageCount: nat)
    ensures ValidateReport(category, title, description, location, hasCoordinates, imageCount)
            == Validation.FirstFailure(ReportChecks(category, title, description, location, hasCoordinates, imageCount))
  {
    var cs := ReportChecks(category, title, description, location, hasCoordinates, imageCount);
    Validation.FirstFailureNoneIffAllPass(cs);
    if category == "" {
      Validation.FirstFailureReportsEarliest(cs, 0);
    } else if title == "" {
      Validation.FirstFailureReportsEarliest(cs, 1);
    } else if description == "" {
      Validation.FirstFailureReportsEarliest(cs, 2);
    } else if location == "" {
      Validation.FirstFailureReportsEarliest(cs, 3);
    } else if !hasCoordinates {
      Validation.FirstFailureReportsEarliest(cs, 4);
    } else if imageCount == 0 {
      Validation.FirstFailureReportsEarliest(cs, 5);
    }
  }

  /** What is sent to the backend: the trimmed fields, the coordinates and
      the selected images. */
  datatype Submission = Submission(
    category: string,
    title: string,
    description: string,
    address: string,
    coordinates: Coordinates,
    images: seq<Uri>)

  /** What the reverse geocoder made of a location fix: an address line, no
      address, or a failure (the form then shows the coordinates as text). */
  datatype GeocodeResult = AddressLine(line: string) | NoAddress | GeocoderFailed(coordinatesText: string)

  /**
   * What pressing submit does with the raw field texts: they are trimmed and
   * checked in order; a blank field counts as missing. The submission carries
   * the trimmed texts, the captured coordinates and every selected image.
   */
  function SubmitAttempt(category: string, title: string, description: string, location: string,
                         coordinates: Option<Coordinates>, images: seq<Uri>): (r: Result<Submission, ReportError>)
    ensures r.Ok? <==> !IsBlank(category) && !IsBlank(title) && !IsBlank(description) && !IsBlank(location)
                       && coordinates.Some? && images != []
    ensures r == Err(CategoryMissing) <==> IsBlank(category)
    ensures r == Err(TitleMissing) <==> !IsBlank(category) && IsBlank(title)
    ensures r == Err(DescriptionMissing) <==> !IsBlank(category) && !IsBlank(title) && IsBlank(description)
    ensures r == Err(LocationMissing) <==>
              !IsBlank(category) && !IsBlank(title) && !IsBlank(description) && IsBlank(location)
    ensures r == Err(CoordinatesMissing) <==>
              !IsBlank(category) && !IsBlank(title) && !IsBlank(description) && !IsBlank(location)
              && coordinates.None?
    ensures r == Err(NoImages) <==>
              !IsBlank(category) && !IsBlank(title) && !IsBlank(description) && !IsBlank(location)
              && coordinates.Some? && images == []
    ensures r.Ok? ==> r.value == Submission(Trim(category), Trim(title), Trim(description), Trim(location),
                                            coordinates.value, images)
  {
    TrimEmptyIffBlank(category);
    TrimEmptyIffBlank(title);
    TrimEmptyIffBlank(description);
    TrimEmptyIffBlank(location);
    var v := ValidateReport(Trim(category), Trim(title), Trim(description), Trim(location), coordinates.Some?, |images|);
    if v.Some? then Err(v.value)
    else Ok(Submission(Trim(category), Trim(title), Trim(description), Trim(location), coordinates.value, images))
  }

  /** The label of the submit button when it can be pressed. */
  const SubmitLabel := "Submit Report"

  class ManualReportForm {
    var selectedImages: seq<Uri>
    var imagesVisible: Visibility
    var currentLocation: Option<Coordinates>
    /** The raw text of the four input fields. */
    var categoryText: string
    var titleText: string
    var descriptionText: string
    var locationText: string
    var toolbarTitle: Option<string>
    var submitEnabled: bool
    var submitLabel: string

    ghost predicate Valid()
      reads this
    {
      |selectedImages| <= MaxImages
    }

    /** `onViewCreated` with the fragment's arguments: a "category" argument
        preselects the category and titles the toolbar; a
        "preselected_image_uri" argument becomes the first image. */
    constructor OnViewCreated(args: map<string, Arg>)
      ensures Valid()
      ensures categoryText == GetString(args, "category").GetOr("")
      ensures toolbarTitle == GetString(args, "category")
      ensures selectedImages == (if GetString(args, "preselected_image_uri").Some?
                                 then [GetString(args, "preselected_image_uri").value] else [])
      ensures imagesVisible == (if GetString(args, "preselected_image_uri").Some? then Visible else AsInLayout)
      ensures currentLocation.None? && titleText == "" && descriptionText == "" && locationText == ""
      ensures submitEnabled && submitLabel == SubmitLabel
    {
      currentLocation := None;
      titleText, descriptionText, locationText := "", "", "";
      submitEnabled, submitLabel := true, SubmitLabel;
      categoryText := "";
      toolbarTitle := None;
      selectedImages := [];
      imagesVisible := AsInLayout;
      new;
      var category := GetString(args, "category");
      if category.Some? {
        categoryText := category.value;
        toolbarTitle := category;
      }
      var preselected := GetString(args, "preselected_image_uri");
      if preselected.Some? {
        var _ := AddImageToList(preselected.value);
      }
    }

    /** `addImageToList`: appends while there is room; at the limit the list
        is left alone and the limit toast is shown. Duplicates are accepted. */
    method AddImageToList(uri: Uri) returns (toast: Option<string>)
      requires Valid()
      modifies this
      ensures Valid()
      ensures |old(selectedImages)| < MaxImages ==>
                selectedImages == old(selectedImages) + [uri] && imagesVisible == Visible && toast.None?
      ensures |old(selectedImages)| >= MaxImages ==>
                selectedImages == old(selectedImages) && imagesVisible == old(imagesVisible)
                && toast == Some(MaxImagesText)
      ensures currentLocation == old(currentLocation) && categoryText == old(categoryText)
      ensures titleText == old(titleText) && descriptionText == old(descriptionText)
      ensures locationText == old(locationText) && toolbarTitle == old(toolbarTitle)
      ensures submitEnabled == old(submitEnabled) && submitLabel == old(submitLabel)
    {
      if |selectedImages| < MaxImages {
        selectedImages := selectedImages + [uri];
        imagesVisible := Visible;
        toast := None;
      } else {
        toast := Some(MaxImagesText);
      }
    }

    /** The camera's result: a photo that was taken is added like any other
        image. */
    method OnCameraResult(success: bool, photo: Option<Uri>) returns (toast: Option<string>)
      requires Valid()
      modifies this
      ensures Valid()
      ensures success && photo.Some? && |old(selectedImages)| < MaxImages ==>
                selectedImages == old(selectedImages) + [photo.value] && imagesVisible == Visible
      ensures !(success && photo.Some? && |old(selectedImages)| < MaxImages) ==>
                selectedImages == old(selectedImages) && imagesVisible == old(imagesVisible)
      ensures toast.Some? <==> success && photo.Some? && |old(selectedImages)| >= MaxImages
      ensures toast.Some? ==> toast.value == MaxImagesText
      ensures currentLocation == old(currentLocation) && categoryText == old(categoryText)
      ensures titleText == old(titleText) && descriptionText == old(descriptionText)
      ensures locationText == old(locationText) && toolbarTitle == old(toolbarTitle)
      ensures submitEnabled == old(submitEnabled) && submitLabel == old(submitLabel)
    {
      toast := None;
      if success && photo.Some? {
        toast := AddImageToList(photo.value);
      }
    }

    /** The gallery card: at the limit it only shows the limit toast;
        otherwise the picker is launched. Nothing changes either way. */
    method OnGalleryClick() returns (launchPicker: bool, toast: Option<string>)
      requires Valid()
      ensures launchPicker <==> |selectedImages| < MaxImages
      ensures toast == if launchPicker then None else Some(MaxImagesText)
    {
      if |selectedImages| >= MaxImages {
        launchPicker, toast := false, Some(MaxImagesText);
      } else {
        launchPicker, toast := true, None;
      }
    }

    /** The gallery's answer: the first `5 - size` picked images are added,
        in the order they were picked; the rest are dropped. */
    method OnImagesPicked(uris: seq<Uri>)
      requires Valid()
      modifies this
      ensures Valid()
      ensures selectedImages == old(selectedImages) + Take(uris, MaxImages - |old(selectedImages)|)
      ensures |selectedImages| == if |old(selectedImages)| + |uris| <= MaxImages
                                  then |old(selectedImages)| + |uris| else MaxImages
      ensures imagesVisible == if |selectedImages| > |old(selectedImages)| then Visible else old(imagesVisible)
      ensures currentLocation == old(currentLocation) && categoryText == old(categoryText)
      ensures titleText == old(titleText) && descriptionText == old(descriptionText)
      ensures locationText == old(locationText) && toolbarTitle == old(toolbarTitle)
      ensures submitEnabled == old(submitEnabled) && submitLabel == old(submitLabel)
    {
      var batch := Take(uris, MaxImages - |selectedImages|);
      if uris != [] {
        var i := 0;
        while i < |batch|
          invariant 0 <= i <= |batch|
          invariant selectedImages == old(selectedImages) + batch[..i]
          invariant imagesVisible == if i > 0 then Visible else old(imagesVisible)
          invariant Valid()
          invariant currentLocation == old(currentLocation) && categoryText == old(categoryText)
          invariant titleText == old(titleText) && descriptionText == old(descriptionText)
          invariant locationText == old(locationText) && toolbarTitle == old(toolbarTitle)
          invariant submitEnabled == old(submitEnabled) && submitLabel == old(submitLabel)
        {
          var _ := AddImageToList(batch[i]);
          assert batch[..i + 1] == batch[..i] + [batch[i]];
          i := i + 1;
        }
        assert batch[..i] == batch;
      }
    }

    /** The remove button of an image preview: the first occurrence of that
        image leaves the list, the others keep their order. */
    method OnRemoveImage(uri: Uri)
      requires Valid()
      modifies this
      ensures Valid()
      ensures selectedImages == RemoveFirst(old(selectedImages), uri)
      ensures imagesVisible == if selectedImages == [] then Gone else Visible
      ensures currentLocation == old(currentLocation) && categoryText == old(categoryText)
      ensures titleText == old(titleText) && descriptionText == old(descriptionText)
      ensures locationText == old(locationText) && toolbarTitle == old(toolbarTitle)
      ensures submitEnabled == old(submitEnabled) && submitLabel == old(submitLabel)
    {
      selectedImages := RemoveFirst(selectedImages, uri);
      imagesVisible := if selectedImages == [] then Gone else Visible;
    }

    /** A location fix: the coordinates are kept, and the address field shows
        the geocoded address line, or the coordinates when geocoding failed. */
    method OnLocationFix(coordinates: Coordinates, geocoded: GeocodeResult)
      requires Valid()
      modifies this
      ensures Valid()
      ensures currentLocation == Some(coordinates)
      ensures locationText == match geocoded
                              case AddressLine(line) => line
                              case NoAddress => old(locationText)
                              case GeocoderFailed(text) => text
      ensures selectedImages == old(selectedImages) && categoryText == old(categoryText)
      ensures titleText == old(titleText) && descriptionText == old(descriptionText)
      ensures imagesVisible == old(imagesVisible) && toolbarTitle == old(toolbarTitle)
      ensures submitEnabled == old(submitEnabled) && submitLabel == old(submitLabel)
    {
      currentLocation := Some(coordinates);
      match geocoded
      case AddressLine(line) => locationText := line;
      case NoAddress =>
      case GeocoderFailed(text) => locationText := text;
    }

    /** The submit button: on the first failed check nothing changes and the
        check is reported; when every check passes the button is disabled,
        relabelled "Submitting..." and the trimmed fields are sent. */
    method ValidateAndSubmit() returns (r: Result<Submission, ReportError>)
      requires Valid()
      modifies this
      ensures Valid()
      ensures r == SubmitAttempt(categoryText, titleText, descriptionText, locationText, currentLocation, selectedImages)
      ensures r.Err? ==> submitEnabled == old(submitEnabled) && submitLabel == old(submitLabel)
      ensures r.Ok? ==> !submitEnabled && submitLabel == "Submitting..."
      ensures selectedImages == old(selectedImages) && currentLocation == old(currentLocation)
      ensures categoryText == old(categoryText) && titleText == old(titleText)
      ensures descriptionText == old(descriptionText) && locationText == old(locationText)
      ensures imagesVisible == old(imagesVisible) && toolbarTitle == old(toolbarTitle)
    {
      r := SubmitAttempt(categoryText, titleText, descriptionText, locationText, currentLocation, selectedImages);
      if r.Ok? {
        submitEnabled := false;
        submitLabel := "Submitting...";
      }
    }

    /** The backend's answer to a submission: success leaves the form
        (the button stays disabled); a failure or an exception re-enables the
        button and restores its label. */
    method OnSubmitResponse(response: Call<()>) returns (popped: bool, toast: string)
      requires Valid()
      modifies this
      ensures Valid()
      ensures popped <==> response.Answered? && response.isSuccessful
      ensures popped ==> submitEnabled == old(submitEnabled) && submitLabel == old(submitLabel)
                         && toast == "Report submitted successfully!"
      ensures !popped ==> submitEnabled && submitLabel == SubmitLabel
      ensures response.Answered? && !response.isSuccessful ==> toast == "Failed to submit: " + response.message
      ensures response.Threw? ==> toast == "Error: " + response.error
      ensures selectedImages == old(selectedImages) && currentLocation == old(currentLocation)
      ensures categoryText == old(categoryText) && titleText == old(titleText)
      ensures descriptionText == old(descriptionText) && locationText == old(locationText)
      ensures imagesVisible == old(imagesVisible) && toolbarTitle == old(toolbarTitle)
    {
      if response.Answered? && response.isSuccessful {
        popped, toast := true, "Report submitted successfully!";
      } else {
        submitEnabled, submitLabel := true, SubmitLabel;
        popped := false;
        toast := if response.Threw? then "Error: " + response.error else "Failed to submit: " + response.message;
      }
    }
  }

  /** However images arrive, the form never holds more than five: adding a
      batch to a list within the limit stays within it. */
  lemma {:induction false} PickedBatchWithinLimit(held: seq<Uri>, picked: seq<Uri>)
    requires |held| <= MaxImages
    ensures |held + Take(picked, MaxImages - |held|)| <= MaxImages
    ensures held + Take(picked, MaxImages - |held|) <= held + picked
  {
  }
}
