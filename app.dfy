/** The application's state controller: two image slots with their previews,
    the loading flag, the last error and the last generated image, the
    handlers that change them, the submit button's enablement and the
    priority in which the result area shows spinner, error, image or
    placeholder.

    React's state setters are immediate assignments here. The single
    `await virtualTryOn(...)` is split into two steps: HandleVirtualTryOn
    (everything before the await) and CompleteVirtualTryOn (everything after
    it, given how the call settled). */
module TryOnApp {
  import opened Js
  import opened GeminiService

  const ValidationMessage := "Please upload both images before proceeding."
  const UnknownErrorMessage := "An unknown error occurred."
  const ResultPrefix := "data:image/jpeg;base64,"

  /** Which uploader a handler is bound to. */
  datatype Slot = PersonSlot | ClothingSlot

  /** The image source stored for a resolved call: the payload behind a JPEG
      data-URL prefix (interpolated, so an `undefined` payload reads as the
      word "undefined"). */
  function DisplayUrl(payload: Option<string>): (url: string)
    ensures ResultPrefix <= url
  {
    ResultPrefix + TemplateText(payload)
  }

  /** The stored image decodes back to the payload the service returned. */
  lemma DisplayedImageDecodes(payload: string)
    requires ',' !in payload
    ensures ExtractPayload(TextResult(DisplayUrl(Some(payload)))) == Some(payload)
  {
    assert DisplayUrl(Some(payload)) == DataUrl("image/jpeg", payload);
    DataUrlPayload("image/jpeg", payload);
  }

  // ---------------------------------------------------------------------
  // The result area

  /** What the result area can show. */
  datatype Panel = SpinnerPanel | ErrorPanel(message: string) | ImagePanel(src: string) | PlaceholderPanel

  /** A single-panel priority: spinner over error over image over
      placeholder, exactly one of them. */
  function PriorityPanel(isLoading: bool, error: Option<string>, generatedImage: Option<string>): Panel {
    if isLoading then SpinnerPanel
    else if Truthy(error) then ErrorPanel(error.value)
    else if Truthy(generatedImage) then ImagePanel(generatedImage.value)
    else PlaceholderPanel
  }

  /** The children of the result area, in order. Each is guarded on its own
      (`isLoading && ...`, `error && ...`, `!isLoading && !error && ...`), so
      the area always shows something; it shows exactly the priority panel
      unless the spinner and a truthy error are both present, in which case
      it shows both. */
  function RenderResultArea(isLoading: bool, error: Option<string>, generatedImage: Option<string>): (shown: seq<Panel>)
    ensures |shown| >= 1 && shown[0] == PriorityPanel(isLoading, error, generatedImage)
    ensures SpinnerPanel in shown <==> isLoading
    ensures Truthy(error) <==> error.Some? && ErrorPanel(error.value) in shown
    ensures !(isLoading && Truthy(error)) ==> shown == [PriorityPanel(isLoading, error, generatedImage)]
    ensures isLoading && Truthy(error) ==> shown == [SpinnerPanel, ErrorPanel(error.value)]
  {
    (if isLoading then [SpinnerPanel] else [])
    + (if Truthy(error) then [ErrorPanel(error.value)] else [])
    + (if !isLoading && !Truthy(error) && Truthy(generatedImage) then [ImagePanel(generatedImage.value)] else [])
    + (if !isLoading && !Truthy(error) && !Truthy(generatedImage) then [PlaceholderPanel] else [])
  }

  // ---------------------------------------------------------------------
  // The controller

  class TryOnController {
    var personImage: Option<File>
    var clothingImage: Option<File>
    var personPreview: Option<string>
    var clothingPreview: Option<string>
    var generatedImage: Option<string>
    var isLoading: bool
    var error: Option<string>

    /** `canTryOn`: both slots hold a file. */
    predicate CanTryOn()
      reads this
    {
      personImage.Some? && clothingImage.Some?
    }

    /** The submit button's `disabled` attribute. */
    predicate SubmitDisabled()
      reads this
    {
      !CanTryOn() || isLoading
    }

    /** The result area as currently rendered. */
    function ResultArea(): seq<Panel>
      reads this
    {
      RenderResultArea(isLoading, error, generatedImage)
    }

    /** What the handlers keep true: while loading, both images are present
        and no error or result is held; a held result comes with both images,
        no error and the JPEG data-URL prefix. */
    predicate Valid()
      reads this
    {
      && (isLoading ==> CanTryOn() && error.None? && generatedImage.None?)
      && (generatedImage.Some? ==> CanTryOn() && error.None? && ResultPrefix <= generatedImage.value)
    }

    /** The initial state: every `useState` starts at `null` or `false`. */
    constructor ()
      ensures Valid()
      ensures personImage.None? && clothingImage.None?
      ensures personPreview.None? && clothingPreview.None?
      ensures generatedImage.None? && !isLoading && error.None?
      ensures ResultArea() == [PlaceholderPanel]
    {
      personImage, clothingImage := None, None;
      personPreview, clothingPreview := None, None;
      generatedImage, isLoading, error := None, false, None;
    }

    /** `handleImageChange`, first step: `setImage(file)` on the one slot. */
    method HandleImageChange(slot: Slot, file: File)
      requires Valid()
      modifies this
      ensures Valid()
      ensures slot == PersonSlot ==> personImage == Some(file) && clothingImage == old(clothingImage)
      ensures slot == ClothingSlot ==> clothingImage == Some(file) && personImage == old(personImage)
      ensures personPreview == old(personPreview) && clothingPreview == old(clothingPreview)
      ensures generatedImage == old(generatedImage) && isLoading == old(isLoading) && error == old(error)
    {
      match slot {
        case PersonSlot => personImage := Some(file);
        case ClothingSlot => clothingImage := Some(file);
      }
    }

    /** `handleImageChange`, second step: the reader's `onloadend` stores
        `reader.result` (a data URL, or `null` after a failed read) as that
        slot's preview. */
    method HandlePreviewLoaded(slot: Slot, dataUrl: Option<string>)
      requires Valid()
      modifies this
      ensures Valid()
      ensures slot == PersonSlot ==> personPreview == dataUrl && clothingPreview == old(clothingPreview)
      ensures slot == ClothingSlot ==> clothingPreview == dataUrl && personPreview == old(personPreview)
      ensures personImage == old(personImage) && clothingImage == old(clothingImage)
      ensures generatedImage == old(generatedImage) && isLoading == old(isLoading) && error == old(error)
    {
      match slot {
        case PersonSlot => personPreview := dataUrl;
        case ClothingSlot => clothingPreview := dataUrl;
      }
    }

    /** `handleVirtualTryOn` up to the await. `called` tells whether
        `virtualTryOn` is invoked. With a slot empty it only sets the
        validation error; otherwise it clears error and result and starts
        loading.

        The handler itself does not test `isLoading`: only the button's
        `disabled` attribute keeps a second call from starting while one is
        in flight. That obligation is the `requires !isLoading` here, which
        ClickTryOn discharges. */
    method HandleVirtualTryOn() returns (called: bool)
      requires Valid()
      requires !isLoading
      modifies this
      ensures Valid()
      ensures called <==> old(CanTryOn())
      ensures !called ==> && error == Some(ValidationMessage)
                          && isLoading == old(isLoading)
                          && generatedImage == old(generatedImage)
      ensures called ==> isLoading && error.None? && generatedImage.None?
      ensures called ==> ResultArea() == [SpinnerPanel]
      ensures personImage == old(personImage) && clothingImage == old(clothingImage)
      ensures personPreview == old(personPreview) && clothingPreview == old(clothingPreview)
    {
      if !CanTryOn() {
        error := Some(ValidationMessage);
        return false;
      }
      isLoading := true;
      error := None;
      generatedImage := None;
      return true;
    }

    /** `handleVirtualTryOn` after the await, given how `virtualTryOn`
        settled: the `try` stores the prefixed result, the `catch` stores the
        message of an `Error` or a fixed text for anything else, and the
        `finally` clears loading. Afterwards exactly one of result and error
        is held. */
    method CompleteVirtualTryOn(outcome: Settled<Option<string>>)
      requires Valid()
      requires isLoading
      modifies this
      ensures Valid()
      ensures !isLoading
      ensures outcome.Resolved? ==> generatedImage == Some(DisplayUrl(outcome.value)) && error.None?
      ensures outcome.Rejected? && outcome.reason.ErrorObject? ==>
                error == Some(outcome.reason.message) && generatedImage.None?
      ensures outcome == Rejected(OtherValue) ==> error == Some(UnknownErrorMessage) && generatedImage.None?
      ensures generatedImage.Some? != error.Some?
      ensures outcome.Resolved? ==> ResultArea() == [ImagePanel(DisplayUrl(outcome.value))]
      ensures Truthy(error) ==> ResultArea() == [ErrorPanel(error.value)]
      ensures personImage == old(personImage) && clothingImage == old(clothingImage)
      ensures personPreview == old(personPreview) && clothingPreview == old(clothingPreview)
    {
      match outcome {
        case Resolved(payload) =>
          generatedImage := Some(DisplayUrl(payload));
        case Rejected(reason) =>
          error := Some(if reason.ErrorObject? then reason.message else UnknownErrorMessage);
      }
      isLoading := false;
    }

    /** A click on the submit button: a disabled button delivers no click,
        so the handler runs exactly when both images are present and no call
        is in flight, and it then always invokes `virtualTryOn`. */
    method ClickTryOn() returns (called: bool)
      requires Valid()
      modifies this
      ensures Valid()
      ensures called <==> !old(SubmitDisabled())
      ensures !called ==> && personImage == old(personImage) && clothingImage == old(clothingImage)
                          && personPreview == old(personPreview) && clothingPreview == old(clothingPreview)
                          && generatedImage == old(generatedImage) && isLoading == old(isLoading)
                          && error == old(error)
      ensures called ==> isLoading && error.None? && generatedImage.None?
      ensures called ==> ResultArea() == [SpinnerPanel]
      ensures personImage == old(personImage) && clothingImage == old(clothingImage)
      ensures personPreview == old(personPreview) && clothingPreview == old(clothingPreview)
    {
      if SubmitDisabled() {
        return false;
      }
      called := HandleVirtualTryOn();
    }
  }

  /** With only the person image selected, submitting sets the validation
      error and does not call the service. */
  method ScenarioOnePhoto(person: File)
  {
    var app := new TryOnController();
    app.HandleImageChange(PersonSlot, person);
    app.HandlePreviewLoaded(PersonSlot, Some(DataUrl(person.mimeType, "UEVSU09O")));
    var called := app.HandleVirtualTryOn();
    assert !called && app.error == Some(ValidationMessage);
    assert app.ResultArea() == [ErrorPanel(ValidationMessage)];
  }

  /** With both images selected and a service answer holding one image part
      with payload "X", the displayed image is the JPEG data URL of "X";
      while the call is in flight a second click does nothing. */
  method ScenarioSuccess(person: File, personRead: ReaderResult, clothing: File, clothingRead: ReaderResult)
  {
    var app := new TryOnController();
    app.HandleImageChange(PersonSlot, person);
    app.HandleImageChange(ClothingSlot, clothing);
    var called := app.ClickTryOn();
    assert called && app.ResultArea() == [SpinnerPanel];
    var again := app.ClickTryOn();
    assert !again;
    var image := ResponsePart(Some(Blob(Some("X"), Some("image/png"))), None);
    var answer := Response(Some([Candidate(Some(Content(Some([image]))))]));
    assert FirstInline(PartsOf(answer)) == Some(Blob(Some("X"), Some("image/png")));
    var result := VirtualTryOn(person, personRead, clothing, clothingRead, req => Resolved(answer));
    assert result == Resolved(Some("X"));
    app.CompleteVirtualTryOn(result);
    assert app.generatedImage == Some(ResultPrefix + "X");
    DisplayedImageDecodes("X");
  }

  /** A service answer without parts, and a call that fails with
      "rate limited", both end in an error the result area shows. */
  method ScenarioFailures(person: File, personRead: ReaderResult, clothing: File, clothingRead: ReaderResult)
  {
    var app := new TryOnController();
    app.HandleImageChange(PersonSlot, person);
    app.HandleImageChange(ClothingSlot, clothing);
    var called := app.ClickTryOn();
    var result := VirtualTryOn(person, personRead, clothing, clothingRead, req => Resolved(Response(Some([]))));
    app.CompleteVirtualTryOn(result);
    assert app.error == Some(FailurePrefix + NoImageMessage);

    called := app.ClickTryOn();
    assert called;
    result := VirtualTryOn(person, personRead, clothing, clothingRead, req => Rejected(ErrorObject("rate limited")));
    app.CompleteVirtualTryOn(result);
    assert app.error == Some(FailurePrefix + "rate limited");
    assert app.generatedImage.None? && !app.isLoading;
  }
}
