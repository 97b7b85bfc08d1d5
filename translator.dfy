/** The Amazon Translate adapter: the table of language codes and the request sent for one
    text. The Amazon Translate client itself is a parameter: it answers a request with the
    translated text or throws. */
module AmazonTranslate {
  import opened Outcomes
  import opened Messages

  /** Amazon Translate's codes for the supported languages. ChineseSimplified has none. */
  const LanguageMappings: map<Language, string> := map[
    Danish := "da",
    English := "en",
    Finnish := "fi",
    French := "fr",
    German := "de",
    Italian := "it",
    Norwegian := "no",
    Russian := "ru",
    Swedish := "sv"]

  /** The text is always translated from Swedish. */
  const SourceLanguage := Swedish

  type TranslateClient = TranslateTextRequest -> Result<string, Exception>

  datatype TranslateTextRequest = TranslateTextRequest(
    sourceLanguageCode: string,
    targetLanguageCode: string,
    text: string)

  /** Exactly the languages other than ChineseSimplified have a code. */
  lemma MappedLanguages(language: Language)
    ensures language in LanguageMappings <==> language != ChineseSimplified
  {
  }

  /** The code of a language that has one: two lower-case letters. */
  function GetLanguageCode(language: Language): (code: string)
    requires language in LanguageMappings
    ensures |code| == 2 && 'a' <= code[0] <= 'z' && 'a' <= code[1] <= 'z'
  {
    LanguageMappings[language]
  }

  /** Distinct languages have distinct codes, so a code names its language. */
  lemma LanguageCodesDistinct(a: Language, b: Language)
    requires a in LanguageMappings && b in LanguageMappings
    ensures GetLanguageCode(a) == GetLanguageCode(b) <==> a == b
  {
  }

  /** The request `TranslateText` builds: from Swedish ("sv"), to the target's code, with the
      text unchanged. Indexing the table with ChineseSimplified throws `KeyNotFoundException`. */
  function TranslateRequest(textToTranslate: string, toLanguage: Language): (r: Result<TranslateTextRequest, Exception>)
    ensures r.Ok? <==> toLanguage != ChineseSimplified
    ensures r.Err? ==> r.error == KeyNotFoundException
    ensures r.Ok? ==>
      && toLanguage in LanguageMappings
      && r.value.sourceLanguageCode == "sv"
      && r.value.targetLanguageCode == GetLanguageCode(toLanguage)
      && r.value.text == textToTranslate
  {
    MappedLanguages(toLanguage);
    var sourceLanguageCode := LanguageMappings[SourceLanguage];
    if toLanguage in LanguageMappings then
      Ok(TranslateTextRequest(sourceLanguageCode, LanguageMappings[toLanguage], textToTranslate))
    else
      Err(KeyNotFoundException)
  }

  /** One text translated through the client: a language without a code fails before the
      client is asked; otherwise the client's answer (or exception) is returned as it is. */
  function TranslateText(client: TranslateClient, textToTranslate: string, toLanguage: Language): (r: Result<string, Exception>)
    ensures toLanguage == ChineseSimplified ==> r == Err(KeyNotFoundException)
    ensures toLanguage in LanguageMappings ==>
      r == client(TranslateTextRequest("sv", GetLanguageCode(toLanguage), textToTranslate))
  {
    match TranslateRequest(textToTranslate, toLanguage)
    case Err(e) => Err(e)
    case Ok(request) => client(request)
  }

  /** The constructor's null checks, in the order it makes them. */
  function ConstructorGuard(translate: Option<TranslateClient>, logger: Option<Logger>): (r: Outcome<Exception>)
    ensures r.Pass? <==> translate.Some? && logger.Some?
    ensures translate.None? ==> r == Fail(ArgumentNullException("translate"))
    ensures translate.Some? && logger.None? ==> r == Fail(ArgumentNullException("logger"))
  {
    var arguments := [("translate", translate.Some?), ("logger", logger.Some?)];
    assert arguments[0].1 == translate.Some? && arguments[1].1 == logger.Some?;
    NullGuards(arguments)
  }
}
