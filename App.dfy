/** The application shell (App.tsx): the credit cost of each size, the
    generation request with its three endings, the simulated purchase, and
    the choice of screen. The shell's state is the class `AppState`; each
    handler is one atomic step. The image service is not part of this model:
    the outcome of its one call is a parameter of the request. */
module App {
  import opened Types
  import Generator
  import Library

  const NotEnoughCreditsMessage: string := "Not enough credits to generate image."
  const GenerationFailedMessage: string := "Failed to generate image. Please try again."

  /** The balance a new session starts with. */
  const InitialCredits: int := 25

  const InitialUser: User := User("1", "user@example.com", InitialCredits, None, UserRole)

  /** What the image service answers: the URL of the new image, or a failure. */
  datatype ApiOutcome = Ok(url: string) | Fail

  /** The one call made to the image service: the composed prompt and the
      orientation. */
  datatype ApiRequest = ApiRequest(fullPrompt: string, orientation: Orientation)

  /** The screens that the shell can render. */
  datatype Screen = GeneratorScreen | LibraryScreen | PricingScreen

  /** The cost in credits of one image of the given size. */
  function CreditCost(size: ImageSize): nat
  {
    match size
    case HD => 1
    case Res2K => 3
    case Res4K => 5
  }

  lemma CostTable()
    ensures CreditCost(HD) == 1 && CreditCost(Res2K) == 3 && CreditCost(Res4K) == 5
    ensures forall s :: CreditCost(s) > 0
  {
  }

  /** The generator form and the shell charge the same for every size. */
  lemma CostsAgree(size: ImageSize)
    ensures Generator.CreditCost(size) == CreditCost(size)
  {
  }

  /** Whatever the form lets through, the shell can pay for: its
      insufficient-credits branch cannot be taken. */
  lemma SubmissionIsAffordable(form: Generator.Form, credits: int, isGenerating: bool)
    requires Generator.HandleSubmit(form, credits, isGenerating).Some?
    ensures credits >= CreditCost(form.size)
    ensures !isGenerating
  {
    CostsAgree(form.size);
  }

  /** The prompt sent to the service: the user's words, then the resolution
      and a request for detail. */
  function FullPrompt(prompt: string, size: ImageSize): string
  {
    prompt + ", " + SizeName(size) + " resolution, high detail"
  }

  /** The composed prompt gives back the user's prompt and the size. */
  lemma FullPromptDeterminesInput(p: string, s: ImageSize, q: string, t: ImageSize)
    requires FullPrompt(p, s) == FullPrompt(q, t)
    ensures p == q && s == t
  {
    var fp, fq := FullPrompt(p, s), FullPrompt(q, t);
    assert |fp| == |p| + 28 && |fq| == |q| + 28;
    assert p == fp[..|p|];
    assert q == fq[..|q|];
    assert SizeName(s) == fp[|p| + 2..|p| + 4];
    assert SizeName(t) == fq[|q| + 2..|q| + 4];
    SizeNameInjective(s, t);
  }

  /** The catalog is newest first: an image that matches the search and was
      just put in front of the others heads page 1 of the library. */
  lemma NewImageLeadsLibrary(img: Image, images: seq<Image>, term: string)
    requires Library.Matches(img, term)
    ensures Library.FilterImages([img] + images, term) == [img] + Library.FilterImages(images, term)
    ensures Library.PageOf(Library.FilterImages([img] + images, term), 1)[0] == img
  {
    assert ([img] + images)[0] == img;
    assert ([img] + images)[1..] == images;
    var f := Library.FilterImages([img] + images, term);
    Library.PageWindow(f, 1);
  }

  /** `renderView`: each view has its screen, and any other view (the
      declared but unused admin view) falls back to the generator. */
  function RenderView(view: View): Screen
  {
    match view
    case LibraryView => LibraryScreen
    case PricingView => PricingScreen
    case _ => GeneratorScreen
  }

  lemma RenderViewDefault(view: View)
    ensures RenderView(view) == GeneratorScreen <==> view == GeneratorView || view == AdminView
    ensures RenderView(view) == LibraryScreen <==> view == LibraryView
    ensures RenderView(view) == PricingScreen <==> view == PricingView
  {
  }

  /** The state of the shell between two user actions. */
  class AppState {
    var currentView: View
    var user: User
    var images: seq<Image>
    var isGenerating: bool
    var error: Option<string>

    /** The balance is never negative. */
    ghost predicate Valid()
      reads this
    {
      user.credits >= 0
    }

    constructor ()
      ensures Valid()
      ensures currentView == GeneratorView && user == InitialUser && images == []
      ensures !isGenerating && error == None
    {
      currentView := GeneratorView;
      user := InitialUser;
      images := [];
      isGenerating := false;
      error := None;
    }

    /** The most recent image, shown beside the generator form. */
    function LastImage(): Option<Image>
      reads this
    {
      if images == [] then None else Some(images[0])
    }

    /** `handleGenerateImage`. A request the balance cannot cover only sets
        the insufficient-credits message; the service is not called and the
        busy flag is not touched. Otherwise the error is cleared, the busy
        flag is raised, and the service is called once; on success the new
        image is put in front of the others and exactly the cost is
        debited, on failure the failure message is set and nothing else
        changes; either way the busy flag ends lowered. `request` is the call
        made to the service, if any; `id` and `createdAt` are the fresh
        identifier and the time stamp of the new image. */
    method HandleGenerateImage(prompt: string, orientation: Orientation, size: ImageSize,
                               outcome: ApiOutcome, id: string, createdAt: nat)
      returns (request: Option<ApiRequest>)
      requires Valid()
      modifies this
      ensures Valid()
      ensures currentView == old(currentView)
      ensures old(user.credits) < CreditCost(size) ==>
        request == None && error == Some(NotEnoughCreditsMessage) &&
        images == old(images) && user == old(user) && isGenerating == old(isGenerating)
      ensures old(user.credits) >= CreditCost(size) ==>
        request == Some(ApiRequest(FullPrompt(prompt, size), orientation)) && !isGenerating
      ensures old(user.credits) >= CreditCost(size) && outcome.Ok? ==>
        images == [Image(id, old(user.id), prompt, orientation, size, outcome.url, createdAt)] + old(images) &&
        user == old(user).(credits := old(user.credits) - CreditCost(size)) &&
        error == None &&
        LastImage() == Some(Image(id, old(user.id), prompt, orientation, size, outcome.url, createdAt))
      ensures old(user.credits) >= CreditCost(size) && outcome.Fail? ==>
        images == old(images) && user == old(user) && error == Some(GenerationFailedMessage)
    {
      var cost := CreditCost(size);
      if user.credits < cost {
        error := Some(NotEnoughCreditsMessage);
        request := None;
        return;
      }

      isGenerating := true;
      error := None;
      var fullPrompt := FullPrompt(prompt, size);
      request := Some(ApiRequest(fullPrompt, orientation));
      match outcome {
        case Ok(imageUrl) =>
          var newImage := Image(id, user.id, prompt, orientation, size, imageUrl, createdAt);
          images := [newImage] + images;
          user := user.(credits := user.credits - cost);
        case Fail =>
          error := Some(GenerationFailedMessage);
      }
      isGenerating := false;
    }

    /** `handleBuyCredits`: the package's credits are added and the
        generator screen is shown. */
    method HandleBuyCredits(pkg: CreditPackage)
      requires Valid()
      modifies this
      ensures Valid()
      ensures user == old(user).(credits := old(user.credits) + pkg.credits)
      ensures currentView == GeneratorView
      ensures images == old(images) && isGenerating == old(isGenerating) && error == old(error)
    {
      user := user.(credits := user.credits + pkg.credits);
      currentView := GeneratorView;
    }

    /** The header's navigation: selects the view and nothing else. */
    method Navigate(view: View)
      modifies this
      ensures currentView == view
      ensures user == old(user) && images == old(images)
      ensures isGenerating == old(isGenerating) && error == old(error)
    {
      currentView := view;
    }

    /** The generator form wired to this shell: the form's guard sees the
        shell's balance and busy flag, and what it lets through is never
        refused for lack of credits. */
    method SubmitForm(form: Generator.Form, outcome: ApiOutcome, id: string, createdAt: nat)
      returns (request: Option<ApiRequest>)
      requires Valid()
      modifies this
      ensures Valid()
      ensures Generator.HandleSubmit(form, old(user.credits), old(isGenerating)) == None ==>
        request == None && user == old(user) && images == old(images) && error == old(error) &&
        isGenerating == old(isGenerating) && currentView == old(currentView)
      ensures Generator.HandleSubmit(form, old(user.credits), old(isGenerating)).Some? ==>
        request == Some(ApiRequest(FullPrompt(form.prompt, form.size), form.orientation)) &&
        !isGenerating && currentView == old(currentView) && error != Some(NotEnoughCreditsMessage)
      ensures Generator.HandleSubmit(form, old(user.credits), old(isGenerating)).Some? && outcome.Ok? ==>
        images == [Image(id, old(user.id), form.prompt, form.orientation, form.size, outcome.url, createdAt)] + old(images) &&
        user == old(user).(credits := old(user.credits) - CreditCost(form.size)) &&
        error == None
      ensures Generator.HandleSubmit(form, old(user.credits), old(isGenerating)).Some? && outcome.Fail? ==>
        images == old(images) && user == old(user) && error == Some(GenerationFailedMessage)
    {
      var submission := Generator.HandleSubmit(form, user.credits, isGenerating);
      match submission {
        case None =>
          request := None;
        case Some(s) =>
          SubmissionIsAffordable(form, user.credits, isGenerating);
          request := HandleGenerateImage(s.prompt, s.orientation, s.size, outcome, id, createdAt);
      }
    }
  }

  /** A session from its start: five 4K images spend the 25 initial credits,
      a sixth request is refused and leaves five images, buying 250 credits
      puts exactly 250 on the balance and returns to the generator, and a
      failed request after that changes neither the balance nor the catalog.
      The results are the balance after the fifth image and after the
      purchase, the balance and the catalog size at the end, and whether the
      sixth request was refused without a service call. */
  method SessionScenario(url: string)
    returns (creditsAfterFive: int, creditsAfterPurchase: int, finalCredits: int, imageCount: nat, sixthRefused: bool)
    ensures creditsAfterFive == 0 && creditsAfterPurchase == 250
    ensures finalCredits == 250 && imageCount == 5 && sixthRefused
  {
    var app := new AppState();
    var r := app.HandleGenerateImage("a lighthouse", Landscape, Res4K, Ok(url), "t1", 1);
    assert app.user.credits == 20 && |app.images| == 1;
    r := app.HandleGenerateImage("a lighthouse", Landscape, Res4K, Ok(url), "t2", 2);
    r := app.HandleGenerateImage("a lighthouse", Landscape, Res4K, Ok(url), "t3", 3);
    r := app.HandleGenerateImage("a lighthouse", Landscape, Res4K, Ok(url), "t4", 4);
    r := app.HandleGenerateImage("a lighthouse", Landscape, Res4K, Ok(url), "t5", 5);
    creditsAfterFive := app.user.credits;
    r := app.HandleGenerateImage("a lighthouse", Square, HD, Ok(url), "t6", 6);
    sixthRefused := r == None && app.error == Some(NotEnoughCreditsMessage) && |app.images| == 5;
    app.HandleBuyCredits(CreditPackage("creator", "Creator Pack", 250, 19.99, "", true));
    creditsAfterPurchase := app.user.credits;
    r := app.HandleGenerateImage("a lighthouse", Square, HD, Fail, "t7", 7);
    assert app.error == Some(GenerationFailedMessage);
    finalCredits := app.user.credits;
    imageCount := |app.images|;
  }
}
