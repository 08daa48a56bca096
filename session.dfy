/**
 * The component's session state and its handlers: field edits, crafting the
 * prompt, and translating it to English.
 *
 * The remote translation is not modelled: a handler that would await it takes
 * the provider's reply as a parameter, and `StartTranslation` hands back the
 * request text it would send. `View` is the abstract value of the session; the
 * transition functions below say what each handler does to it, and the
 * `Session` class carries the same fields and updates them in place.
 */
module AppState {
  import opened JsStrings
  import opened Types
  import opened Assembler
  import opened PromptProperties

  datatype Option<T> = None | Some(value: T)

  /** What the translation provider answers: a text, or a thrown error. */
  datatype Reply = Success(text: string) | Failure

  const UnavailableError := "Layanan terjemahan tidak tersedia (API Key belum diatur)."
  const UnavailableText := "Translation service unavailable."
  const FailedError := "Gagal menerjemahkan prompt. Silakan coba lagi."
  const FailedText := "Error during translation."

  /** The instruction put in front of the Indonesian text sent for translation. */
  const Instruction :=
    "Translate the following Indonesian text to English. "
    + "IMPORTANT: If you find a part of the text enclosed in double curly braces like {{this part}}, "
    + "keep that specific part exactly as it is, without translating it. "
    + "Only translate the text outside of the curly braces. Text to translate: "

  /** The request sent to the provider: the instruction followed by the text,
      which is passed on unchanged and untrimmed. */
  function TranslationRequest(text: string): (r: string)
    ensures |r| == |Instruction| + |text|
    ensures Instruction <= r && r[|Instruction|..] == text
  {
    Instruction + text
  }

  /** The abstract session: every piece of component state the handlers write. */
  datatype View = View(
    promptInputs: PromptState,
    generatedIndonesianPrompt: string,
    generatedEnglishPrompt: string,
    isCopiedIndo: bool,
    isCopiedEng: bool,
    isTranslating: bool,
    translationError: Option<string>)

  /** The state on first render: the given inputs, empty outputs, no error. */
  function Initial(inputs: PromptState): View {
    View(inputs, "", "", false, false, false, None)
  }

  /** What every reachable state satisfies: a translation in flight has a
      key, no error and an empty English text; the only error shown is the
      one that fits the key's presence; and without a key an error always
      comes with the "unavailable" English text. */
  predicate Consistent(v: View, hasKey: bool) {
    && (v.isTranslating ==> hasKey && v.translationError == None && v.generatedEnglishPrompt == "")
    && (v.translationError == None || v.translationError == Some(if hasKey then FailedError else UnavailableError))
    && (!hasKey && v.translationError != None ==> v.generatedEnglishPrompt == UnavailableText)
  }

  /** `handleInputChange(field, value)`. */
  function WithInput(v: View, field: Field, value: string): View {
    v.(promptInputs := v.promptInputs.With(field, value))
  }

  /** `handleIndonesianPromptChange(value)`: the user edits the Indonesian prompt. */
  function WithIndonesianPrompt(v: View, value: string): View {
    v.(generatedIndonesianPrompt := value)
  }

  /** The request `translateToEnglish(text)` sends, if any: only with a key
      and a non-blank text. */
  function Request(hasKey: bool, text: string): Option<string> {
    if hasKey && !Blank(text) then Some(TranslationRequest(text)) else None
  }

  /** The synchronous part of `translateToEnglish(text)`, up to the call. */
  function Started(v: View, hasKey: bool, text: string): View {
    if !hasKey then
      v.(translationError := Some(UnavailableError), generatedEnglishPrompt := UnavailableText)
    else if Blank(text) then
      v.(generatedEnglishPrompt := "")
    else
      v.(isTranslating := true, translationError := None, generatedEnglishPrompt := "")
  }

  /** The part of `translateToEnglish` after the call settles: the reply or the
      failure is shown, and the busy flag is cleared either way. */
  function Settled(v: View, reply: Reply): View {
    match reply
    case Success(text) =>
      v.(generatedEnglishPrompt := text, isTranslating := false)
    case Failure =>
      v.(translationError := Some(FailedError), generatedEnglishPrompt := FailedText, isTranslating := false)
  }

  /** `translateToEnglish(text)` run to completion, the provider answering `reply`. */
  function Translated(v: View, hasKey: bool, text: string, reply: Reply): View {
    var started := Started(v, hasKey, text);
    if Request(hasKey, text).Some? then Settled(started, reply) else started
  }

  /** `handleCraftPrompt`: assemble, store, clear the copied flags, translate. */
  function Crafted(v: View, hasKey: bool, reply: Reply): View {
    var indoPrompt := Assemble(v.promptInputs);
    Translated(v.(generatedIndonesianPrompt := indoPrompt, isCopiedIndo := false, isCopiedEng := false),
              hasKey, indoPrompt, reply)
  }

  /** `handleRetranslate`: translate the current Indonesian prompt as it stands. */
  function Retranslated(v: View, hasKey: bool, reply: Reply): View {
    Translated(v, hasKey, v.generatedIndonesianPrompt, reply)
  }

  /** The outcome of `translateToEnglish(text)`. Without a key the
      "unavailable" error and text are shown. With a blank text only the
      English text is cleared: an earlier error stays on screen. Otherwise
      the request is sent, and afterwards the busy flag is clear and either
      the reply is shown with no error, or the failure error and text are.
      The inputs, the Indonesian prompt and the copied flags are never touched. */
  lemma TranslationOutcome(v: View, hasKey: bool, text: string, reply: Reply)
    requires Consistent(v, hasKey)
    ensures var w := Translated(v, hasKey, text, reply);
      && w.promptInputs == v.promptInputs
      && w.generatedIndonesianPrompt == v.generatedIndonesianPrompt
      && w.isCopiedIndo == v.isCopiedIndo && w.isCopiedEng == v.isCopiedEng
      && (!hasKey ==>
            w.translationError == Some(UnavailableError)
            && w.generatedEnglishPrompt == UnavailableText && !w.isTranslating)
      && (hasKey && Blank(text) ==> w == v.(generatedEnglishPrompt := ""))
      && (hasKey && !Blank(text) ==>
            !w.isTranslating
            && (reply.Success? ==> w.generatedEnglishPrompt == reply.text && w.translationError == None)
            && (reply.Failure? ==>
                  w.generatedEnglishPrompt == FailedText && w.translationError == Some(FailedError)))
  {
  }

  /** A translation that reaches the provider leaves nothing of the previous
      one behind: its outcome does not depend on the English text, the error
      or the busy flag it started from. */
  lemma TranslationForgetsPrevious(v: View, u: View, hasKey: bool, text: string, reply: Reply)
    requires hasKey && !Blank(text)
    requires u.promptInputs == v.promptInputs && u.generatedIndonesianPrompt == v.generatedIndonesianPrompt
    requires u.isCopiedIndo == v.isCopiedIndo && u.isCopiedEng == v.isCopiedEng
    ensures Translated(u, hasKey, text, reply) == Translated(v, hasKey, text, reply)
  {
  }

  /** Crafting stores the assembled prompt, clears both copied flags and, with
      a key, always sends that very prompt for translation: the assembled
      prompt is never blank, so the blank-text branch is never taken. */
  lemma CraftOutcome(v: View, hasKey: bool, reply: Reply)
    requires Consistent(v, hasKey)
    ensures var w := Crafted(v, hasKey, reply);
      && w.promptInputs == v.promptInputs
      && w.generatedIndonesianPrompt == Assemble(v.promptInputs)
      && !w.isCopiedIndo && !w.isCopiedEng && !w.isTranslating
      && (hasKey ==> Request(hasKey, Assemble(v.promptInputs)) == Some(TranslationRequest(Assemble(v.promptInputs))))
      && (hasKey && reply.Success? ==> w.generatedEnglishPrompt == reply.text && w.translationError == None)
      && (hasKey && reply.Failure? ==> w.generatedEnglishPrompt == FailedText && w.translationError == Some(FailedError))
      && (!hasKey ==> w.generatedEnglishPrompt == UnavailableText && w.translationError == Some(UnavailableError))
  {
    AssembleOpensWithScene(v.promptInputs);
  }

  /** What a craft shows depends on the form inputs alone, not on anything
      left from earlier crafts, edits or translations. */
  lemma CraftDependsOnInputsOnly(v: View, u: View, hasKey: bool, reply: Reply)
    requires Consistent(v, hasKey) && Consistent(u, hasKey)
    requires u.promptInputs == v.promptInputs
    ensures Crafted(u, hasKey, reply) == Crafted(v, hasKey, reply)
  {
    AssembleOpensWithScene(v.promptInputs);
  }

  /** Retranslating right after a craft resends the same prompt without
      assembling it again: the result is the craft with the new reply. */
  lemma RetranslateAfterCraft(v: View, hasKey: bool, first: Reply, second: Reply)
    requires Consistent(v, hasKey)
    ensures Retranslated(Crafted(v, hasKey, first), hasKey, second) == Crafted(v, hasKey, second)
  {
    AssembleOpensWithScene(v.promptInputs);
  }

  /** Editing a field only by whitespace around its value does not change what
      the next craft produces. */
  lemma PaddingEditKeepsCraft(v: View, hasKey: bool, field: Field, value: string, reply: Reply)
    requires Trim(value) == Trim(v.promptInputs.Get(field))
    ensures Crafted(WithInput(v, field, value), hasKey, reply) == WithInput(Crafted(v, hasKey, reply), field, value)
  {
    SameTrimSamePrompt(v.promptInputs, field, value);
    var prompt := Assemble(v.promptInputs);
    var edited := WithInput(v, field, value);
    assert Crafted(edited, hasKey, reply)
      == Translated(edited.(generatedIndonesianPrompt := prompt, isCopiedIndo := false, isCopiedEng := false),
                    hasKey, prompt, reply);
  }

  /** The trimmed dialogue reaches the provider inside its double braces, the
      span the instruction asks to be kept untranslated. */
  lemma DialogueReachesProvider(p: PromptState)
    requires !Blank(p.kalimatYangDiucapkan)
    ensures Contains(TranslationRequest(Assemble(p)), "{{" + Trim(p.kalimatYangDiucapkan) + "}}")
  {
    DialogueKeptInBraces(p);
    assert TranslationRequest(Assemble(p)) == Instruction + Assemble(p) + [];
    ContainsInContext(Instruction, Assemble(p), [], "{{" + Trim(p.kalimatYangDiucapkan) + "}}");
  }

  class Session {
    var promptInputs: PromptState
    var generatedIndonesianPrompt: string
    var generatedEnglishPrompt: string
    var isCopiedIndo: bool
    var isCopiedEng: bool
    var isTranslating: bool
    var translationError: Option<string>
    /** Whether an API key is configured (`ai` is non-null); fixed for the session. */
    const hasKey: bool

    /** The session as a value. */
    ghost function State(): View
      reads this
    {
      View(promptInputs, generatedIndonesianPrompt, generatedEnglishPrompt,
           isCopiedIndo, isCopiedEng, isTranslating, translationError)
    }

    ghost predicate Valid()
      reads this
    {
      Consistent(State(), hasKey)
    }

    /** First render, with the default inputs passed in. */
    constructor (initial: PromptState, keyConfigured: bool)
      ensures Valid() && hasKey == keyConfigured && State() == Initial(initial)
    {
      promptInputs := initial;
      generatedIndonesianPrompt := "";
      generatedEnglishPrompt := "";
      isCopiedIndo := false;
      isCopiedEng := false;
      isTranslating := false;
      translationError := None;
      hasKey := keyConfigured;
    }

    /** `handleInputChange`: exactly the named field takes the new value. */
    method InputChange(field: Field, value: string)
      requires Valid()
      modifies this`promptInputs
      ensures Valid() && State() == WithInput(old(State()), field, value)
      ensures promptInputs.Get(field) == value
      ensures forall g :: g != field ==> promptInputs.Get(g) == old(promptInputs).Get(g)
    {
      promptInputs := promptInputs.With(field, value);
    }

    /** `handleIndonesianPromptChange`. */
    method IndonesianPromptChange(value: string)
      requires Valid()
      modifies this`generatedIndonesianPrompt
      ensures Valid() && State() == WithIndonesianPrompt(old(State()), value)
    {
      generatedIndonesianPrompt := value;
    }

    /** `translateToEnglish` up to the provider call; `request` is what would
        be sent, or `None` when the function returns before calling. */
    method StartTranslation(text: string) returns (request: Option<string>)
      requires Valid()
      modifies this`generatedEnglishPrompt, this`translationError, this`isTranslating
      ensures Valid() && State() == Started(old(State()), hasKey, text)
      ensures request == Request(hasKey, text)
    {
      if !hasKey {
        translationError := Some(UnavailableError);
        generatedEnglishPrompt := UnavailableText;
        return None;
      }
      if Blank(text) {
        generatedEnglishPrompt := "";
        return None;
      }
      isTranslating := true;
      translationError := None;
      generatedEnglishPrompt := "";
      request := Some(TranslationRequest(text));
    }

    /** `translateToEnglish` after the provider call settles. A reply exists
        only for a request, and a request is only sent with a key. */
    method CompleteTranslation(reply: Reply)
      requires Valid() && hasKey
      modifies this`generatedEnglishPrompt, this`translationError, this`isTranslating
      ensures Valid() && State() == Settled(old(State()), reply)
    {
      match reply {
        case Success(text) =>
          generatedEnglishPrompt := text;
        case Failure =>
          translationError := Some(FailedError);
          generatedEnglishPrompt := FailedText;
      }
      isTranslating := false;
    }

    /** `translateToEnglish(text)`, with no other handler running while the
        provider is awaited. */
    method TranslateToEnglish(text: string, reply: Reply) returns (request: Option<string>)
      requires Valid()
      modifies this`generatedEnglishPrompt, this`translationError, this`isTranslating
      ensures Valid() && State() == Translated(old(State()), hasKey, text, reply)
      ensures request == Request(hasKey, text)
    {
      request := StartTranslation(text);
      if request.Some? {
        CompleteTranslation(reply);
      }
    }

    /** `handleCraftPrompt`. */
    method CraftPrompt(reply: Reply) returns (request: Option<string>)
      requires Valid()
      modifies this`generatedIndonesianPrompt, this`isCopiedIndo, this`isCopiedEng
      modifies this`generatedEnglishPrompt, this`translationError, this`isTranslating
      ensures Valid() && State() == Crafted(old(State()), hasKey, reply)
      ensures request == Request(hasKey, Assemble(promptInputs))
    {
      var indoPrompt := GenerateDetailedIndonesianPrompt(promptInputs);
      ShowFreshPrompt(indoPrompt);
      request := TranslateToEnglish(indoPrompt, reply);
    }

    /** The first three steps of `handleCraftPrompt`: store the new prompt and
        clear both copied flags. */
    method ShowFreshPrompt(indoPrompt: string)
      requires Valid()
      modifies this`generatedIndonesianPrompt, this`isCopiedIndo, this`isCopiedEng
      ensures Valid()
      ensures State() == old(State()).(generatedIndonesianPrompt := indoPrompt, isCopiedIndo := false, isCopiedEng := false)
    {
      generatedIndonesianPrompt := indoPrompt;
      isCopiedIndo := false;
      isCopiedEng := false;
    }

    /** `handleRetranslate`. */
    method Retranslate(reply: Reply) returns (request: Option<string>)
      requires Valid()
      modifies this`generatedEnglishPrompt, this`translationError, this`isTranslating
      ensures Valid() && State() == Retranslated(old(State()), hasKey, reply)
      ensures request == Request(hasKey, old(generatedIndonesianPrompt))
    {
      request := TranslateToEnglish(generatedIndonesianPrompt, reply);
    }
  }
}
