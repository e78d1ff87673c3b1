/** The generation form (components/Generator.tsx): its own copy of the cost
    table, the `canGenerate` gate, the submit guard on the trimmed prompt, the
    disabled state of the submit button and the button's cost label. All of
    it is pure; the component's `useState` selections are the fields of `Form`. */
module Generator {
  import opened Types

  /** What the user has typed and selected. */
  datatype Form = Form(prompt: string, orientation: Orientation, size: ImageSize)

  /** The arguments of one call of the `onGenerate` callback. */
  datatype Submission = Submission(prompt: string, orientation: Orientation, size: ImageSize)

  /** The form as it first appears: an empty prompt, Square and HD. */
  const InitialForm: Form := Form("", Square, HD)

  /** The component's own cost table, an object literal indexed by the size. */
  function CreditCost(s: ImageSize): nat
  {
    var costs := map[HD := 1, Res2K := 3, Res4K := 5];
    assert s == HD || s == Res2K || s == Res4K;
    costs[s]
  }

  lemma CostTable()
    ensures CreditCost(HD) == 1 && CreditCost(Res2K) == 3 && CreditCost(Res4K) == 5
  {
  }

  /** The form may ask for an image when the balance covers the cost of the
      selected size and no request is in flight. */
  function CanGenerate(userCredits: int, isGenerating: bool, size: ImageSize): (r: bool)
    ensures r ==> !isGenerating && userCredits >= 1
    ensures size == HD ==> (r <==> !isGenerating && userCredits >= 1)
    ensures size == Res2K ==> (r <==> !isGenerating && userCredits >= 3)
    ensures size == Res4K ==> (r <==> !isGenerating && userCredits >= 5)
  {
    CostTable();
    assert size == HD || size == Res2K || size == Res4K;
    userCredits >= CreditCost(size) && !isGenerating
  }

  /** A larger balance never closes the gate. */
  lemma CanGenerateMonotone(userCredits: int, more: int, isGenerating: bool, size: ImageSize)
    requires userCredits <= more && CanGenerate(userCredits, isGenerating, size)
    ensures CanGenerate(more, isGenerating, size)
  {
  }

  // ----- String trimming ---------------------------------------------------

  /** The code points that `String.prototype.trim` removes: the ECMAScript
      WhiteSpace set (TAB, VT, FF, SP, NBSP, ZWNBSP and the Space_Separator
      category) and the LineTerminator set (LF, CR, LS, PS). */
  predicate IsWhiteSpace(c: char)
  {
    c == '\t' || c == '\U{000B}' || c == '\U{000C}' || c == ' ' || c == '\U{00A0}' ||
    c == '\U{FEFF}' || c == '\U{1680}' || ('\U{2000}' <= c <= '\U{200A}') ||
    c == '\U{202F}' || c == '\U{205F}' || c == '\U{3000}' ||
    c == '\n' || c == '\r' || c == '\U{2028}' || c == '\U{2029}'
  }

  /** Every character of the text is white space. */
  ghost predicate AllWhiteSpace(s: string)
  {
    forall i :: 0 <= i < |s| ==> IsWhiteSpace(s[i])
  }

  /** The text holds at least one character that is not white space. */
  ghost predicate HasVisibleChar(s: string)
  {
    !AllWhiteSpace(s)
  }

  function TrimStart(s: string): string
  {
    if |s| > 0 && IsWhiteSpace(s[0]) then TrimStart(s[1..]) else s
  }

  function TrimEnd(s: string): string
  {
    if |s| > 0 && IsWhiteSpace(s[|s| - 1]) then TrimEnd(s[..|s| - 1]) else s
  }

  function Trim(s: string): string
  {
    TrimEnd(TrimStart(s))
  }

  /** TrimStart drops a leading run of white space and keeps the rest. */
  lemma {:induction false} TrimStartSpec(s: string)
    ensures exists k :: (0 <= k <= |s| && TrimStart(s) == s[k..] &&
      (forall i :: 0 <= i < k ==> IsWhiteSpace(s[i])))
  {
    if |s| > 0 && IsWhiteSpace(s[0]) {
      TrimStartSpec(s[1..]);
      var k :| 0 <= k <= |s[1..]| && TrimStart(s[1..]) == s[1..][k..] &&
        (forall i :: 0 <= i < k ==> IsWhiteSpace(s[1..][i]));
      assert s[1..][k..] == s[k + 1..];
      forall i | 0 <= i < k + 1
        ensures IsWhiteSpace(s[i])
      {
        if i > 0 { assert s[i] == s[1..][i - 1]; }
      }
    } else {
      assert TrimStart(s) == s[0..];
    }
  }

  /** What TrimStart leaves does not start with white space. */
  lemma {:induction false} TrimStartFirstVisible(s: string)
    ensures TrimStart(s) != [] ==> !IsWhiteSpace(TrimStart(s)[0])
  {
    if |s| > 0 && IsWhiteSpace(s[0]) {
      TrimStartFirstVisible(s[1..]);
    }
  }

  /** TrimStart leaves nothing exactly when the text is white space only. */
  lemma {:induction false} TrimStartEmptyIff(s: string)
    ensures TrimStart(s) == [] <==> AllWhiteSpace(s)
  {
    if |s| > 0 && IsWhiteSpace(s[0]) {
      TrimStartEmptyIff(s[1..]);
      assert forall i :: 1 <= i < |s| ==> s[i] == s[1..][i - 1];
    }
  }

  /** TrimEnd drops a trailing run of white space and keeps the rest. */
  lemma {:induction false} TrimEndSpec(s: string)
    ensures exists k :: (0 <= k <= |s| && TrimEnd(s) == s[..k] &&
      (forall i :: k <= i < |s| ==> IsWhiteSpace(s[i])))
  {
    if |s| > 0 && IsWhiteSpace(s[|s| - 1]) {
      var t := s[..|s| - 1];
      TrimEndSpec(t);
      var k :| 0 <= k <= |t| && TrimEnd(t) == t[..k] &&
        (forall i :: k <= i < |t| ==> IsWhiteSpace(t[i]));
      assert t[..k] == s[..k];
      forall i | k <= i < |s|
        ensures IsWhiteSpace(s[i])
      {
        if i < |s| - 1 { assert s[i] == t[i]; }
      }
    } else {
      assert TrimEnd(s) == s[..|s|];
    }
  }

  /** What TrimEnd leaves does not end with white space. */
  lemma {:induction false} TrimEndLastVisible(s: string)
    ensures TrimEnd(s) != [] ==> !IsWhiteSpace(TrimEnd(s)[|TrimEnd(s)| - 1])
  {
    if |s| > 0 && IsWhiteSpace(s[|s| - 1]) {
      TrimEndLastVisible(s[..|s| - 1]);
    }
  }

  /** TrimEnd leaves nothing exactly when the text is white space only. */
  lemma {:induction false} TrimEndEmptyIff(s: string)
    ensures TrimEnd(s) == [] <==> AllWhiteSpace(s)
  {
    if |s| > 0 && IsWhiteSpace(s[|s| - 1]) {
      var t := s[..|s| - 1];
      TrimEndEmptyIff(t);
      assert forall i :: 0 <= i < |t| ==> s[i] == t[i];
    }
  }

  /** The trimmed prompt is empty exactly when the prompt is white space only. */
  lemma TrimEmptyIff(s: string)
    ensures Trim(s) == [] <==> !HasVisibleChar(s)
  {
    TrimStartFirstVisible(s);
    TrimStartEmptyIff(s);
    TrimEndEmptyIff(TrimStart(s));
    assert TrimStart(s) != [] ==> !AllWhiteSpace(TrimStart(s));
  }

  // ----- Submission ----------------------------------------------------------

  /** The form's submit handler: it calls `onGenerate` with the untrimmed
      prompt and the selections, but only when the trimmed prompt is
      non-empty and the gate is open. */
  function HandleSubmit(form: Form, userCredits: int, isGenerating: bool): (r: Option<Submission>)
    ensures r.Some? <==>
      HasVisibleChar(form.prompt) && userCredits >= CreditCost(form.size) && !isGenerating
    ensures r.Some? ==> r.value == Submission(form.prompt, form.orientation, form.size)
  {
    TrimEmptyIff(form.prompt);
    if Trim(form.prompt) != [] && CanGenerate(userCredits, isGenerating, form.size)
    then Some(Submission(form.prompt, form.orientation, form.size))
    else None
  }

  /** The `disabled` attribute of the submit button. */
  predicate SubmitDisabled(form: Form, userCredits: int, isGenerating: bool)
  {
    !CanGenerate(userCredits, isGenerating, form.size) || Trim(form.prompt) == []
  }

  /** The button is disabled exactly when pressing it would submit nothing. */
  lemma SubmitDisabledIffNoSubmission(form: Form, userCredits: int, isGenerating: bool)
    ensures SubmitDisabled(form, userCredits, isGenerating) <==>
      HandleSubmit(form, userCredits, isGenerating).None?
  {
    TrimEmptyIff(form.prompt);
  }

  /** A prompt of white space only never submits, whatever the balance. */
  lemma BlankPromptNeverSubmits(form: Form, userCredits: int, isGenerating: bool)
    requires forall i :: 0 <= i < |form.prompt| ==> IsWhiteSpace(form.prompt[i])
    ensures HandleSubmit(form, userCredits, isGenerating) == None
    ensures SubmitDisabled(form, userCredits, isGenerating)
  {
    TrimEmptyIff(form.prompt);
  }

  /** The initial form cannot submit: its prompt is empty. */
  lemma InitialFormCannotSubmit(userCredits: int, isGenerating: bool)
    ensures InitialForm.orientation == Square && InitialForm.size == HD
    ensures HandleSubmit(InitialForm, userCredits, isGenerating) == None
  {
  }

  // ----- Button label ------------------------------------------------------------

  /** The unit printed after the cost: singular only for a cost of at most one. */
  function CostUnit(cost: int): (r: string)
  {
    if cost > 1 then "Credits" else "Credit"
  }

  function DigitChar(d: nat): (c: char)
    requires d < 10
  {
    "0123456789"[d]
  }

  /** The decimal text of a natural number, as a template literal prints it. */
  function NatToString(n: nat): (r: string)
    ensures |r| > 0
  {
    if n < 10 then [DigitChar(n)] else NatToString(n / 10) + [DigitChar(n % 10)]
  }

  /** The text of the submit button. */
  function ButtonLabel(size: ImageSize, isGenerating: bool): string
  {
    if isGenerating then "Generating..."
    else
      var cost := CreditCost(size);
      "Generate (" + NatToString(cost) + " " + CostUnit(cost) + ")"
  }

  /** The fixed captions of the three size buttons. */
  function SizeCaption(size: ImageSize): string
  {
    match size
    case HD => "(1 Credit)"
    case Res2K => "(3 Credits)"
    case Res4K => "(5 Credits)"
  }

  /** The button reads "Credit" for a cost of one and "Credits" above it. */
  lemma ButtonLabels()
    ensures ButtonLabel(HD, false) == "Generate (1 Credit)"
    ensures ButtonLabel(Res2K, false) == "Generate (3 Credits)"
    ensures ButtonLabel(Res4K, false) == "Generate (5 Credits)"
    ensures forall size :: ButtonLabel(size, true) == "Generating..."
  {
    assert NatToString(1) == "1" && NatToString(3) == "3" && NatToString(5) == "5";
  }

  /** The fixed captions of the size buttons agree with the cost table. */
  lemma SizeCaptionsAgreeWithCosts(size: ImageSize)
    ensures SizeCaption(size) ==
      "(" + NatToString(CreditCost(size)) + " " + CostUnit(CreditCost(size)) + ")"
  {
    match size
    case HD => assert NatToString(1) == "1";
    case Res2K => assert NatToString(3) == "3";
    case Res4K => assert NatToString(5) == "5";
  }
}
