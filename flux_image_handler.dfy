/**
 * Prompt sanitising, image-size selection and the retrying submission of
 * `src/handlers/flux_image_handler.py`.
 *
 * The FLUX API is an oracle: attempt `i` of a submission ends as `outcomes[i]`
 * (`Raised` when the oracle is exhausted). The fuzzy keyword matcher (difflib with
 * cutoff 0.8 against two keyword lists) is abstracted as two predicates on words.
 */
module FluxImageHandler {
  import opened Base
  import opened Strings

  const MaxRetries: nat := 3
  const BackoffFactor: nat := 2
  const ImageSizeDefault: string := "landscape_16_9"
  const SafetyToleranceDefault: string := "5"
  const ValidImageSizes: set<string> :=
    {"square_hd", "square", "portrait_4_3", "portrait_16_9", "landscape_4_3", "landscape_16_9"}
  const DefaultInferenceSteps: int := 28
  const DefaultGuidanceScale: real := 3.5
  const DefaultNumImages: int := 1
  const DefaultOutputFormat: string := "jpeg"
  const MinPromptLength: nat := 3
  const MaxPromptLength: nat := 200

  // ---------------------------------------------------------------------------
  // _sanitize_prompt
  // ---------------------------------------------------------------------------

  /** `re.sub(r'[<>]', '', s)`. */
  function RemoveAngles(s: string): (r: string)
    ensures '<' !in r && '>' !in r
    ensures |r| == |s| - CountChar(s, '<') - CountChar(s, '>')
  {
    if s == [] then []
    else (if s[0] == '<' || s[0] == '>' then [] else [s[0]]) + RemoveAngles(s[1..])
  }

  /** Only the angle brackets go: every other character keeps its number of occurrences. */
  lemma {:induction false} RemoveAnglesKeeps(s: string, c: char)
    requires c != '<' && c != '>'
    ensures CountChar(RemoveAngles(s), c) == CountChar(s, c)
    decreases |s|
  {
    if s != [] {
      RemoveAnglesKeeps(s[1..], c);
      var head := if s[0] == '<' || s[0] == '>' then [] else [s[0]];
      CountCharAppend(head, RemoveAngles(s[1..]), c);
    }
  }

  lemma {:induction false} RemoveAnglesNoop(s: string)
    requires '<' !in s && '>' !in s
    ensures RemoveAngles(s) == s
    decreases |s|
  {
    if s != [] {
      RemoveAnglesNoop(s[1..]);
      assert s == [s[0]] + s[1..];
    }
  }

  /** Stripping never introduces a character. */
  lemma StripAbsent(s: string, c: char)
    requires c !in s
    ensures c !in Strip(s)
  {
    var r := Strip(s);
    forall i | 0 <= i < |r|
      ensures r[i] != c
    {
      assert r[i] == s[StripOffset(s)..StripOffset(s) + |r|][i] == s[StripOffset(s) + i];
    }
  }

  lemma NoAnglesAfterStrip(prompt: string)
    ensures '<' !in Strip(RemoveAngles(prompt)) && '>' !in Strip(RemoveAngles(prompt))
  {
    StripAbsent(RemoveAngles(prompt), '<');
    StripAbsent(RemoveAngles(prompt), '>');
  }

  /** `_sanitize_prompt`: the bracket-free, stripped prompt when 3 to 200 characters long. */
  function SanitizePrompt(prompt: string): (r: Option<string>)
    ensures r.Some? ==> MinPromptLength <= |r.value| <= MaxPromptLength
    ensures r.Some? ==> '<' !in r.value && '>' !in r.value
    ensures r.Some? ==> Trimmed(r.value)
  {
    var sanitized := Strip(RemoveAngles(prompt));
    NoAnglesAfterStrip(prompt);
    if MinPromptLength <= |sanitized| <= MaxPromptLength then Some(sanitized) else None
  }

  /** A prompt is accepted exactly when its stripped, bracket-free text has an allowed length,
      and the result is a contiguous piece of that text. */
  lemma SanitizeAccepts(prompt: string)
    ensures var t := RemoveAngles(prompt);
            (SanitizePrompt(prompt).Some? <==> MinPromptLength <= |Strip(t)| <= MaxPromptLength) &&
            (SanitizePrompt(prompt).Some? ==>
               var r := SanitizePrompt(prompt).value;
               StripOffset(t) + |r| <= |t| && forall i :: 0 <= i < |r| ==> r[i] == t[StripOffset(t) + i])
  {
  }

  /** Sanitising is idempotent: an accepted prompt is accepted again, unchanged. */
  lemma SanitizeIdempotent(prompt: string)
    requires SanitizePrompt(prompt).Some?
    ensures SanitizePrompt(SanitizePrompt(prompt).value) == SanitizePrompt(prompt)
  {
    var r := SanitizePrompt(prompt).value;
    RemoveAnglesNoop(r);
    StripIdempotent(RemoveAngles(prompt));
  }

  // ---------------------------------------------------------------------------
  // determine_image_size
  // ---------------------------------------------------------------------------

  predicate NotWordChar(c: char) { !IsWordChar(c) }

  /** `re.findall(r'\b\w+\b', prompt.lower())`: the maximal runs of word characters. */
  function PromptWords(prompt: string): seq<string> {
    Fields(Lower(prompt), NotWordChar)
  }

  /** How many of `words` the matcher accepts. */
  function CountWhere(words: seq<string>, matches: string -> bool): (n: nat)
    ensures n <= |words|
  {
    if words == [] then 0 else (if matches(words[0]) then 1 else 0) + CountWhere(words[1..], matches)
  }

  lemma CountWhereAppend(a: seq<string>, b: seq<string>, matches: string -> bool)
    ensures CountWhere(a + b, matches) == CountWhere(a, matches) + CountWhere(b, matches)
  {
    if a != [] {
      assert (a + b)[1..] == a[1..] + b;
      CountWhereAppend(a[1..], b, matches);
    } else {
      assert a + b == b;
    }
  }

  /** `count_matches_fuzzy`: one pass over the words with a counter. */
  method CountMatchesFuzzy(words: seq<string>, matches: string -> bool) returns (count: nat)
    ensures count == CountWhere(words, matches)
    ensures count <= |words|
  {
    count := 0;
    var i := 0;
    while i < |words|
      invariant 0 <= i <= |words|
      invariant count == CountWhere(words[..i], matches)
    {
      CountWhereAppend(words[..i], [words[i]], matches);
      assert words[..i + 1] == words[..i] + [words[i]];
      if matches(words[i]) {
        count := count + 1;
      }
      i := i + 1;
    }
    assert words[..i] == words;
  }

  /** The comparison at the end of `determine_image_size`. */
  function ChooseSize(portraitScore: nat, landscapeScore: nat): (size: string)
    ensures size in ValidImageSizes
    ensures size == "portrait_16_9" <==> portraitScore > landscapeScore
    ensures size != "portrait_16_9" ==> size == "landscape_16_9"
  {
    if portraitScore > landscapeScore then "portrait_16_9"
    else if landscapeScore > portraitScore then "landscape_16_9"
    else ImageSizeDefault
  }

  method DetermineImageSize(prompt: string, isPortraitWord: string -> bool, isLandscapeWord: string -> bool)
    returns (size: string)
    ensures size == ChooseSize(CountWhere(PromptWords(prompt), isPortraitWord),
                               CountWhere(PromptWords(prompt), isLandscapeWord))
    ensures size in ValidImageSizes
  {
    var words := PromptWords(prompt);
    var portraitScore := CountMatchesFuzzy(words, isPortraitWord);
    var landscapeScore := CountMatchesFuzzy(words, isLandscapeWord);
    size := ChooseSize(portraitScore, landscapeScore);
  }

  // ---------------------------------------------------------------------------
  // generate_image
  // ---------------------------------------------------------------------------

  /** The values of the `arguments` dictionary. */
  datatype ArgValue = Str(s: string) | Int(i: int) | Num(r: real) | Flag(b: bool)

  /** How the API treated one submission: it raised, or it returned a result whose
      `images` list may be empty. */
  datatype ApiOutcome = Raised | Returned(images: seq<string>)

  function OutcomeAt(outcomes: seq<ApiOutcome>, i: nat): ApiOutcome {
    if i < |outcomes| then outcomes[i] else Raised
  }

  /** `if not image_size: determine ...` then `if image_size not in VALID_IMAGE_SIZES: default`. */
  function EffectiveSize(requested: Option<string>, determined: string): (size: string)
    ensures size in ValidImageSizes
    ensures requested.Some? && requested.value in ValidImageSizes ==> size == requested.value
    ensures (requested.None? || requested.value == "") && determined in ValidImageSizes ==> size == determined
  {
    var s := if requested.None? || requested.value == "" then determined else requested.value;
    if s in ValidImageSizes then s else ImageSizeDefault
  }

  /** The fields `generate_image` fills in; `seed` is only sent when one was given. */
  datatype Request = Request(prompt: string, imageSize: string, numInferenceSteps: int,
                             guidanceScale: real, numImages: int, safetyTolerance: string,
                             outputFormat: string, seed: Option<int>)

  /** The request built with the handler's defaults. */
  function DefaultRequest(prompt: string, size: string, seed: Option<int>): Request {
    Request(prompt, size, DefaultInferenceSteps, DefaultGuidanceScale, DefaultNumImages,
            SafetyToleranceDefault, DefaultOutputFormat, seed)
  }

  /** The `arguments` dictionary sent to the API. */
  function Arguments(q: Request): map<string, ArgValue> {
    var base := map["prompt" := Str(q.prompt), "image_size" := Str(q.imageSize),
                     "num_inference_steps" := Int(q.numInferenceSteps),
                     "guidance_scale" := Num(q.guidanceScale), "num_images" := Int(q.numImages),
                     "safety_tolerance" := Str(q.safetyTolerance), "output_format" := Str(q.outputFormat),
                     "enable_safety_checker" := Flag(true)];
    if q.seed.Some? then base["seed" := Int(q.seed.value)] else base
  }

  /** The dictionary has a `seed` key exactly when a seed was given, and carries every field. */
  lemma ArgumentsSeed(q: Request)
    ensures var args := Arguments(q);
            ("seed" in args <==> q.seed.Some?) &&
            (q.seed.Some? ==> args["seed"] == Int(q.seed.value)) &&
            args["prompt"] == Str(q.prompt) && args["image_size"] == Str(q.imageSize) &&
            args["num_inference_steps"] == Int(q.numInferenceSteps) &&
            args["guidance_scale"] == Num(q.guidanceScale) && args["num_images"] == Int(q.numImages) &&
            args["safety_tolerance"] == Str(q.safetyTolerance) &&
            args["output_format"] == Str(q.outputFormat) &&
            args["enable_safety_checker"] == Flag(true) &&
            args.Keys == if q.seed.Some? then ArgumentNames + {"seed"} else ArgumentNames
  {
  }

  /** The arguments every request carries. */
  const ArgumentNames: set<string> := {"prompt", "image_size", "num_inference_steps", "guidance_scale", "num_images",
                                       "safety_tolerance", "output_format", "enable_safety_checker"}

  /** The size `generate_image` settles on: the requested one, else the one determined from
      the prompt, and the default when that is not a valid size. */
  method SelectSize(prompt: string, imageSize: Option<string>,
                    isPortraitWord: string -> bool, isLandscapeWord: string -> bool)
    returns (size: string)
    ensures size == EffectiveSize(imageSize, ChooseSize(CountWhere(PromptWords(prompt), isPortraitWord),
                                                        CountWhere(PromptWords(prompt), isLandscapeWord)))
    ensures size in ValidImageSizes
    ensures imageSize.Some? && imageSize.value in ValidImageSizes ==> size == imageSize.value
    ensures imageSize.Some? && imageSize.value != "" && imageSize.value !in ValidImageSizes ==>
              size == ImageSizeDefault
    ensures imageSize.None? || imageSize.value == "" ==>
              size == ChooseSize(CountWhere(PromptWords(prompt), isPortraitWord),
                                 CountWhere(PromptWords(prompt), isLandscapeWord))
  {
    if imageSize.None? || imageSize.value == "" {
      size := DetermineImageSize(prompt, isPortraitWord, isLandscapeWord);
    } else {
      size := imageSize.value;
    }
    if size !in ValidImageSizes {
      size := ImageSizeDefault;
    }
  }

  /** The retry loop of `generate_image`: up to three submissions of the same request. A raise
      is retried after `2 ** (attempt - 1)` seconds except on the last attempt; a result without
      images ends the call with `None` at once. */
  method Submit(request: Request, outcomes: seq<ApiOutcome>)
    returns (images: Option<seq<string>>, submitted: seq<Request>, sleepsSeconds: seq<nat>)
    ensures 1 <= |submitted| <= MaxRetries
    ensures forall j :: 0 <= j < |submitted| ==> submitted[j] == request
    ensures forall j :: 0 <= j < |submitted| - 1 ==> OutcomeAt(outcomes, j).Raised?
    ensures !OutcomeAt(outcomes, |submitted| - 1).Raised? ==>
              images == (if OutcomeAt(outcomes, |submitted| - 1).images != []
                         then Some(OutcomeAt(outcomes, |submitted| - 1).images) else None)
    ensures OutcomeAt(outcomes, |submitted| - 1).Raised? ==> |submitted| == MaxRetries && images.None?
    ensures images.Some? ==> images.value != []
    ensures |sleepsSeconds| == |submitted| - 1
    ensures forall j :: 0 <= j < |sleepsSeconds| ==> sleepsSeconds[j] == Pow2(j)
  {
    submitted, sleepsSeconds := [], [];
    var attempt := 1;
    while true
      invariant 1 <= attempt <= MaxRetries
      invariant |submitted| == attempt - 1 && |sleepsSeconds| == attempt - 1
      invariant forall j :: 0 <= j < |submitted| ==> submitted[j] == request
      invariant forall j :: 0 <= j < |submitted| ==> OutcomeAt(outcomes, j).Raised?
      invariant forall j :: 0 <= j < |sleepsSeconds| ==> sleepsSeconds[j] == Pow2(j)
      decreases MaxRetries - attempt
    {
      submitted := submitted + [request];
      var outcome := OutcomeAt(outcomes, attempt - 1);
      if outcome.Returned? {
        if outcome.images != [] {
          return Some(outcome.images), submitted, sleepsSeconds;
        }
        return None, submitted, sleepsSeconds;
      }
      if attempt < MaxRetries {
        sleepsSeconds := sleepsSeconds + [Pow2(attempt - 1)];
        attempt := attempt + 1;
      } else {
        return None, submitted, sleepsSeconds;
      }
    }
  }

  /** The first attempt whose outcome is not a raise, if one of the three is. */
  function FirstAnswer(outcomes: seq<ApiOutcome>, from: nat): (k: Option<nat>)
    requires from <= MaxRetries
    ensures k.Some? ==> from <= k.value < MaxRetries && !OutcomeAt(outcomes, k.value).Raised? &&
                        forall j :: from <= j < k.value ==> OutcomeAt(outcomes, j).Raised?
    ensures k.None? ==> forall j :: from <= j < MaxRetries ==> OutcomeAt(outcomes, j).Raised?
    decreases MaxRetries - from
  {
    if from == MaxRetries then None
    else if !OutcomeAt(outcomes, from).Raised? then Some(from)
    else FirstAnswer(outcomes, from + 1)
  }

  /** The submission ends on the first answer: it returns images exactly when the first
      non-raising attempt within three returned a non-empty list. */
  lemma SubmitOutcome(request: Request, outcomes: seq<ApiOutcome>,
                      images: Option<seq<string>>, submitted: seq<Request>)
    requires 1 <= |submitted| <= MaxRetries
    requires forall j :: 0 <= j < |submitted| - 1 ==> OutcomeAt(outcomes, j).Raised?
    requires !OutcomeAt(outcomes, |submitted| - 1).Raised? ==>
               images == (if OutcomeAt(outcomes, |submitted| - 1).images != []
                          then Some(OutcomeAt(outcomes, |submitted| - 1).images) else None)
    requires OutcomeAt(outcomes, |submitted| - 1).Raised? ==> |submitted| == MaxRetries && images.None?
    ensures var k := FirstAnswer(outcomes, 0);
            (k.None? ==> images.None? && |submitted| == MaxRetries) &&
            (k.Some? ==> |submitted| == k.value + 1 &&
                         (images.Some? <==> OutcomeAt(outcomes, k.value).images != []) &&
                         (images.Some? ==> images.value == OutcomeAt(outcomes, k.value).images))
  {
    var k := FirstAnswer(outcomes, 0);
    var last := |submitted| - 1;
    if k.Some? && !OutcomeAt(outcomes, last).Raised? {
      assert last <= k.value;
    }
  }

  /** `generate_image`: an invalid prompt ends the call before any submission; otherwise the
      sanitised prompt, the settled size (determined from the sanitised prompt when none was
      requested) and the defaults are submitted as above, and the images are those of the
      first answer. */
  method GenerateImage(prompt: string, imageSize: Option<string>, seed: Option<int>,
                       isPortraitWord: string -> bool, isLandscapeWord: string -> bool,
                       outcomes: seq<ApiOutcome>)
    returns (images: Option<seq<string>>, submitted: seq<Request>, sleepsSeconds: seq<nat>)
    ensures SanitizePrompt(prompt).None? ==> images.None? && submitted == [] && sleepsSeconds == []
    ensures SanitizePrompt(prompt).Some? ==>
              1 <= |submitted| <= MaxRetries && |sleepsSeconds| == |submitted| - 1 &&
              var q := submitted[0];
              q.prompt == SanitizePrompt(prompt).value && q.imageSize in ValidImageSizes &&
              q.seed == seed && q.numInferenceSteps == DefaultInferenceSteps &&
              (imageSize.Some? && imageSize.value in ValidImageSizes ==> q.imageSize == imageSize.value) &&
              (forall j :: 0 <= j < |submitted| ==> submitted[j] == q) &&
              (images.Some? <==> FirstAnswer(outcomes, 0).Some? &&
                                 OutcomeAt(outcomes, FirstAnswer(outcomes, 0).value).images != [])
    ensures SanitizePrompt(prompt).Some? ==>
              var p := SanitizePrompt(prompt).value;
              var determined := ChooseSize(CountWhere(PromptWords(p), isPortraitWord),
                                           CountWhere(PromptWords(p), isLandscapeWord));
              submitted != [] && submitted[0] == DefaultRequest(p, EffectiveSize(imageSize, determined), seed) &&
              ((imageSize.None? || imageSize.value == "") ==> submitted[0].imageSize == determined) &&
              (images.Some? ==> FirstAnswer(outcomes, 0).Some? &&
                                images.value == OutcomeAt(outcomes, FirstAnswer(outcomes, 0).value).images)
    ensures images.Some? ==> images.value != []
    ensures forall j :: 0 <= j < |sleepsSeconds| ==> sleepsSeconds[j] == Pow2(j)
  {
    var sanitized := SanitizePrompt(prompt);
    if sanitized.None? {
      return None, [], [];
    }
    var size := SelectSize(sanitized.value, imageSize, isPortraitWord, isLandscapeWord);
    var request := DefaultRequest(sanitized.value, size, seed);
    images, submitted, sleepsSeconds := Submit(request, outcomes);
    SubmitOutcome(request, outcomes, images, submitted);
  }
}
