/** The wizard (`EpicPostcardApp` in src/App.tsx): its state fields and the
    handlers that move it through the steps form → photo → result. */
module App {
  import opened Wrappers
  import opened Types

  const Forward := 1
  const Backward := -1

  /** The wizard's state. `requests` records, in order, the payloads handed to
      `generateEpicAsync`; `generationError` is the hook's `error` as the wizard
      shows it. */
  class Wizard {
    var currentStep: AppStep
    var userData: Option<UserFormData>
    var finalImage: Option<ProcessedImage>
    var postcard: Option<PostcardData>
    var animationDirection: int
    var generationError: Option<string>
    var requests: seq<GenParams>

    /** What every handler keeps: the photo step always has the user's data; the
        result step has the data, the photo and a postcard of that person and
        profession; the direction is one of the two the animation knows. */
    predicate Valid()
      reads this
    {
      (currentStep == OnPhoto ==> userData.Some?)
      && (currentStep == OnResult ==>
            userData.Some? && finalImage.Some? && postcard.Some?
            && postcard.value.name == userData.value.name
            && postcard.value.profession == userData.value.profession)
      && (animationDirection == Forward || animationDirection == Backward)
    }

    /** The initial state: the form step, nothing stored, moving forward. */
    constructor ()
      ensures Valid()
      ensures currentStep == OnForm && userData == None && finalImage == None && postcard == None
      ensures animationDirection == Forward && generationError == None && requests == []
    {
      currentStep := OnForm;
      userData := None;
      finalImage := None;
      postcard := None;
      animationDirection := Forward;
      generationError := None;
      requests := [];
    }

    /** The payload a generation request is built from. */
    static function Params(data: UserFormData, image: ProcessedImage): (p: GenParams)
      ensures p.name == data.name && p.profession == data.profession && p.userImage == image.file
    {
      GenParams(data.name, data.profession, image.file)
    }

    /** `handleFormSubmit`: store the data and go to the photo step. */
    method HandleFormSubmit(data: UserFormData)
      requires Valid()
      modifies this
      ensures Valid()
      ensures userData == Some(data) && currentStep == OnPhoto
      ensures finalImage == old(finalImage) && postcard == old(postcard)
      ensures animationDirection == old(animationDirection)
      ensures generationError == old(generationError) && requests == old(requests)
    {
      userData := Some(data);
      currentStep := OnPhoto;
    }

    /** `handleGeneratePostcard`: without user data nothing is requested; otherwise
        one request with the person, the profession and the photo's file. A new
        mutation starts with no error, so the hook's previous error is cleared. */
    method HandleGeneratePostcard(image: ProcessedImage)
      requires Valid()
      modifies this
      ensures Valid()
      ensures userData.None? ==> requests == old(requests) && generationError == old(generationError)
      ensures userData.Some? ==> requests == old(requests) + [Params(userData.value, image)] && generationError == None
      ensures currentStep == old(currentStep) && userData == old(userData)
      ensures finalImage == old(finalImage) && postcard == old(postcard)
      ensures animationDirection == old(animationDirection)
    {
      if userData.None? {
        return;
      }
      requests := requests + [Params(userData.value, image)];
      generationError := None;
    }

    /** `handleImageCaptured`: store the photo, then request a generation with it. */
    method HandleImageCaptured(image: ProcessedImage)
      requires Valid()
      modifies this
      ensures Valid()
      ensures finalImage == Some(image)
      ensures userData.None? ==> requests == old(requests) && generationError == old(generationError)
      ensures userData.Some? ==> requests == old(requests) + [Params(userData.value, image)] && generationError == None
      ensures currentStep == old(currentStep) && userData == old(userData) && postcard == old(postcard)
      ensures animationDirection == old(animationDirection)
    {
      finalImage := Some(image);
      HandleGeneratePostcard(image);
    }

    /** The hook's `onSuccess`: only with both the data and the photo stored, build
        the postcard from them and the result, and show the result step; otherwise
        change nothing. */
    method OnSuccess(result: GenResult, createdAt: string)
      requires Valid()
      modifies this
      ensures Valid()
      ensures old(userData.Some? && finalImage.Some?) ==>
        currentStep == OnResult
        && postcard == Some(PostcardData(userData.value.name, userData.value.profession,
                                         result.description, result.imageUrl, createdAt))
      ensures !old(userData.Some? && finalImage.Some?) ==>
        currentStep == old(currentStep) && postcard == old(postcard)
      ensures userData == old(userData) && finalImage == old(finalImage)
      ensures animationDirection == old(animationDirection)
      ensures generationError == old(generationError) && requests == old(requests)
    {
      if userData.Some? && finalImage.Some? {
        var data := userData.value;
        postcard := Some(PostcardData(data.name, data.profession, result.description, result.imageUrl, createdAt));
        currentStep := OnResult;
      }
    }

    /** The hook's `error` after a request has failed for good. */
    method OnFailure(message: string)
      requires Valid()
      modifies this
      ensures Valid()
      ensures generationError == Some(message)
      ensures currentStep == old(currentStep) && userData == old(userData)
      ensures finalImage == old(finalImage) && postcard == old(postcard)
      ensures animationDirection == old(animationDirection) && requests == old(requests)
    {
      generationError := Some(message);
    }

    /** The error alert's "Reintentar" button (`resetGeneration`): the error goes
        away without a new request, and nothing else changes. */
    method DismissError()
      requires Valid()
      modifies this
      ensures Valid()
      ensures generationError == None
      ensures currentStep == old(currentStep) && userData == old(userData)
      ensures finalImage == old(finalImage) && postcard == old(postcard)
      ensures animationDirection == old(animationDirection) && requests == old(requests)
    {
      generationError := None;
    }

    /** `handleRestart`: back to the form with nothing stored, and the hook reset. */
    method HandleRestart()
      requires Valid()
      modifies this
      ensures Valid()
      ensures currentStep == OnForm && userData == None && finalImage == None && postcard == None
      ensures generationError == None
      ensures animationDirection == old(animationDirection) && requests == old(requests)
    {
      currentStep := OnForm;
      userData := None;
      finalImage := None;
      postcard := None;
      generationError := None;
    }

    /** `handleGenerateNew`: the same data and photo again, only when both are stored;
        the new mutation clears the previous error. */
    method HandleGenerateNew()
      requires Valid()
      modifies this
      ensures Valid()
      ensures currentStep == old(currentStep) && userData == old(userData)
      ensures finalImage == old(finalImage) && postcard == old(postcard)
      ensures animationDirection == old(animationDirection)
      ensures userData.Some? && finalImage.Some? ==>
        requests == old(requests) + [Params(userData.value, finalImage.value)] && generationError == None
      ensures !(userData.Some? && finalImage.Some?) ==>
        requests == old(requests) && generationError == old(generationError)
    {
      if userData.None? || finalImage.None? {
        return;
      }
      requests := requests + [Params(userData.value, finalImage.value)];
      generationError := None;
    }

    /** `handleBack`: one step back (the form step has none), always animating backward. */
    method HandleBack()
      requires Valid()
      modifies this
      ensures Valid()
      ensures animationDirection == Backward
      ensures currentStep == PreviousStep(old(currentStep))
      ensures userData == old(userData) && finalImage == old(finalImage) && postcard == old(postcard)
      ensures generationError == old(generationError) && requests == old(requests)
    {
      animationDirection := Backward;
      match currentStep
      case OnPhoto => currentStep := OnForm;
      case OnResult => currentStep := OnPhoto;
      case OnForm =>
    }
  }

  /** The step `handleBack` leads to. */
  function PreviousStep(s: AppStep): (p: AppStep)
    ensures s == OnForm <==> p == s
    ensures s == OnPhoto ==> p == OnForm
    ensures s == OnResult ==> p == OnPhoto
  {
    match s
    case OnForm => OnForm
    case OnPhoto => OnForm
    case OnResult => OnPhoto
  }

  /** One pass through the wizard: submit the form, capture a photo, receive the
      generated postcard. Exactly one request is made, with the person, the
      profession and the photo; the result step shows a postcard of both. */
  method HappyPath(data: UserFormData, image: ProcessedImage, result: GenResult, createdAt: string)
    returns (step: AppStep, card: Option<PostcardData>, sent: seq<GenParams>)
    ensures step == OnResult
    ensures card == Some(PostcardData(data.name, data.profession, result.description, result.imageUrl, createdAt))
    ensures sent == [GenParams(data.name, data.profession, image.file)]
  {
    var w := new Wizard();
    w.HandleFormSubmit(data);
    w.HandleImageCaptured(image);
    w.OnSuccess(result, createdAt);
    step, card, sent := w.currentStep, w.postcard, w.requests;
  }

  /** In this model, where `onSuccess` reads the wizard's state at the time it
      runs, a success that arrives after a restart is ignored: the wizard stays on
      the form with no postcard. */
  method LateSuccessAfterRestart(data: UserFormData, image: ProcessedImage, result: GenResult, createdAt: string)
    returns (step: AppStep, card: Option<PostcardData>)
    ensures step == OnForm && card == None
  {
    var w := new Wizard();
    w.HandleFormSubmit(data);
    w.HandleImageCaptured(image);
    w.HandleRestart();
    w.OnSuccess(result, createdAt);
    step, card := w.currentStep, w.postcard;
  }

  /** A failed generation shows its error until a new request, a restart or a
      dismissal: here capturing a new photo starts a request, which clears it. */
  method FailureThenNewPhoto(data: UserFormData, image: ProcessedImage, retake: ProcessedImage, message: string)
    returns (shown: Option<string>, afterRetake: Option<string>, sent: seq<GenParams>)
    ensures shown == Some(message) && afterRetake == None
    ensures sent == [GenParams(data.name, data.profession, image.file), GenParams(data.name, data.profession, retake.file)]
  {
    var w := new Wizard();
    w.HandleFormSubmit(data);
    w.HandleImageCaptured(image);
    w.OnFailure(message);
    shown := w.generationError;
    w.HandleImageCaptured(retake);
    afterRetake, sent := w.generationError, w.requests;
  }

  /** Dismissing a failure's error clears it without a new request: the wizard
      stays on the photo step and only the first request was made. */
  method FailureThenDismiss(data: UserFormData, image: ProcessedImage, message: string)
    returns (shown: Option<string>, afterDismiss: Option<string>, step: AppStep, sent: seq<GenParams>)
    ensures shown == Some(message) && afterDismiss == None && step == OnPhoto
    ensures sent == [GenParams(data.name, data.profession, image.file)]
  {
    var w := new Wizard();
    w.HandleFormSubmit(data);
    w.HandleImageCaptured(image);
    w.OnFailure(message);
    shown := w.generationError;
    w.DismissError();
    afterDismiss, step, sent := w.generationError, w.currentStep, w.requests;
  }

  /** On the result step "generate new" sends the same payload again. Two back
      steps then reach the form with the data kept, and submitting it again moves
      to the photo step without a further request; the animation stays backward,
      because no handler turns it forward again. */
  method BackThenGenerateNew(data: UserFormData, image: ProcessedImage, result: GenResult, createdAt: string)
    returns (step: AppStep, direction: int, sent: seq<GenParams>)
    ensures step == OnPhoto && direction == Backward
    ensures sent == [GenParams(data.name, data.profession, image.file), GenParams(data.name, data.profession, image.file)]
  {
    var w := new Wizard();
    w.HandleFormSubmit(data);
    w.HandleImageCaptured(image);
    w.OnSuccess(result, createdAt);
    w.HandleGenerateNew();
    w.HandleBack();
    w.HandleBack();
    w.HandleFormSubmit(data);
    step, direction, sent := w.currentStep, w.animationDirection, w.requests;
  }
}
