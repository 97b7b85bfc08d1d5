/** The handler of `TranslateCommand`: refuse ChineseSimplified, download the education page
    by its address, extract its fragments, translate them one by one, store them under a dated
    key, raise `TranslatedEvent`. Its four collaborators and the dispatcher are parameters:
    each call returns a value or throws, and a throw ends the handler with that exception. */
module CommandTranslation {
  import opened Outcomes
  import opened Messages
  import opened Locations
  import opened TranslationLoop

  /** `IFileDownloader.GetContent`, given the page address. */
  type Downloader = string -> Result<string, Exception>

  /** `ITextExtractor.ExtractText`. */
  type TextExtractor = string -> Result<seq<string>, Exception>

  /** `ITranslator`: translating one text, and naming a language's code. */
  datatype Translator = Translator(
    translateText: (string, Language) -> Result<string, Exception>,
    getLanguageCode: Language -> Result<string, Exception>)

  /** `ITranslationPersister.PersistTranslations`. */
  type Persister = (string, seq<string>) -> Outcome<Exception>

  /** `IDispatcher.RaiseEventAsync`. */
  type Dispatcher = TranslatedEvent -> Outcome<Exception>

  datatype Collaborators = Collaborators(
    downloader: Downloader,
    textExtractor: TextExtractor,
    translator: Translator,
    persister: Persister)

  /** One call the handler makes on a collaborator or on the dispatcher. */
  datatype Call =
    | GetContent(uri: string)
    | ExtractText(text: string)
    | TranslateText(textToTranslate: string, toLanguage: Language)
    | GetLanguageCode(language: Language)
    | PersistTranslations(key: string, translations: seq<string>)
    | RaiseEvent(event: TranslatedEvent)

  /** What the handler throws, before any call, for a command to ChineseSimplified. */
  const ChineseNotSupported := ArgumentOutOfRangeException("ToLanguage", "Chinese not supported")

  /** The calls one handling makes, in order, and how it ends. */
  datatype Run = Run(calls: seq<Call>, outcome: Outcome<Exception>)

  /** What translating each fragment returns or throws. */
  function Answers(translator: Translator, fragments: seq<string>, toLanguage: Language): seq<Result<string, Exception>>
  {
    seq(|fragments|, j requires 0 <= j < |fragments| => translator.translateText(fragments[j], toLanguage))
  }

  /** The translate calls for the first `count` fragments. */
  function TranslateCalls(fragments: seq<string>, toLanguage: Language, count: nat): seq<Call>
    requires count <= |fragments|
  {
    seq(count, j requires 0 <= j < count => TranslateText(fragments[j], toLanguage))
  }

  /** `HandleAsync`, step by step: the calls it makes, in order, and how it ends. Every step
      that throws ends it with that exception. */
  function Handle(a: Addressing, c: Collaborators, dispatcher: Dispatcher, command: TranslateCommand, today: Date): (run: Run)
    ensures run.calls == [] <==> command.toLanguage == ChineseSimplified
    ensures command.toLanguage == ChineseSimplified ==> run.outcome == Fail(ChineseNotSupported)
    ensures command.toLanguage != ChineseSimplified ==> run.calls[0] == GetContent(a.educationUri(command.educationId))
  {
    if command.toLanguage == ChineseSimplified then Run([], Fail(ChineseNotSupported))
    else
      var made := [GetContent(a.educationUri(command.educationId))];
      match c.downloader(a.educationUri(command.educationId))
      case Err(e) => Run(made, Fail(e))
      case Ok(content) => Extracting(a, c, dispatcher, command, today, made, content)
  }

  /** From the downloaded profile on, after the calls `made`. */
  function Extracting(a: Addressing, c: Collaborators, dispatcher: Dispatcher, command: TranslateCommand, today: Date,
                      made: seq<Call>, content: string): Run
  {
    var made := made + [ExtractText(content)];
    match c.textExtractor(content)
    case Err(e) => Run(made, Fail(e))
    case Ok(fragments) => Translating(a, c, dispatcher, command, today, made, fragments)
  }

  /** From the extracted fragments on: they are translated in order until one throws. */
  function Translating(a: Addressing, c: Collaborators, dispatcher: Dispatcher, command: TranslateCommand, today: Date,
                       made: seq<Call>, fragments: seq<string>): Run
  {
    var answers := Answers(c.translator, fragments, command.toLanguage);
    var failed := FirstFailure(answers);
    if failed < |fragments| then
      Run(made + TranslateCalls(fragments, command.toLanguage, failed + 1), Fail(answers[failed].error))
    else
      Storing(a, c, dispatcher, command, today, made + TranslateCalls(fragments, command.toLanguage, |fragments|), Values(answers))
  }

  /** From the collected translations on: the key, the persist, the event. */
  function Storing(a: Addressing, c: Collaborators, dispatcher: Dispatcher, command: TranslateCommand, today: Date,
                   made: seq<Call>, translations: seq<string>): Run
  {
    var made := made + [GetLanguageCode(command.toLanguage)];
    match c.translator.getLanguageCode(command.toLanguage)
    case Err(e) => Run(made, Fail(e))
    case Ok(code) =>
      var fileKey := a.fileKey(today, command.educationId, code);
      var made := made + [PersistTranslations(fileKey, translations)];
      match c.persister(fileKey, translations)
      case Fail(e) => Run(made, Fail(e))
      case Pass =>
        var event := TranslatedEvent(command.educationId, None, command.toLanguage, fileKey);
        Run(made + [RaiseEvent(event)], dispatcher(event))
  }

  /** The storing stage makes the same calls, and ends the same way, whatever was called
      before it. */
  lemma StoringAfter(a: Addressing, c: Collaborators, dispatcher: Dispatcher, command: TranslateCommand, today: Date,
                     before: seq<Call>, made: seq<Call>, translations: seq<string>)
    ensures var run := Storing(a, c, dispatcher, command, today, made, translations);
      Storing(a, c, dispatcher, command, today, before + made, translations) == Run(before + run.calls, run.outcome)
  {
    var language := GetLanguageCode(command.toLanguage);
    assert (before + made) + [language] == before + (made + [language]);
    match c.translator.getLanguageCode(command.toLanguage)
    case Err(_) =>
    case Ok(code) =>
      var persist := PersistTranslations(a.fileKey(today, command.educationId, code), translations);
      assert (before + made) + [language] + [persist] == before + (made + [language] + [persist]);
      var event := TranslatedEvent(command.educationId, None, command.toLanguage, a.fileKey(today, command.educationId, code));
      assert (before + made) + [language] + [persist] + [RaiseEvent(event)]
          == before + (made + [language] + [persist] + [RaiseEvent(event)]);
  }

  /** The translating stage makes the same calls, and ends the same way, whatever was called
      before it. */
  lemma TranslatingAfter(a: Addressing, c: Collaborators, dispatcher: Dispatcher, command: TranslateCommand, today: Date,
                         before: seq<Call>, made: seq<Call>, fragments: seq<string>)
    ensures var run := Translating(a, c, dispatcher, command, today, made, fragments);
      Translating(a, c, dispatcher, command, today, before + made, fragments) == Run(before + run.calls, run.outcome)
  {
    var answers := Answers(c.translator, fragments, command.toLanguage);
    var failed := FirstFailure(answers);
    if failed < |fragments| {
      var attempted := TranslateCalls(fragments, command.toLanguage, failed + 1);
      assert (before + made) + attempted == before + (made + attempted);
    } else {
      var attempted := TranslateCalls(fragments, command.toLanguage, |fragments|);
      assert (before + made) + attempted == before + (made + attempted);
      StoringAfter(a, c, dispatcher, command, today, before, made + attempted, Values(answers));
    }
  }

  /** Where a call sits in `HandleAsync`: download, extract, translate, key, persist, raise. */
  function Step(call: Call): nat {
    match call
    case GetContent(_) => 0
    case ExtractText(_) => 1
    case TranslateText(_, _) => 2
    case GetLanguageCode(_) => 3
    case PersistTranslations(_, _) => 4
    case RaiseEvent(_) => 5
  }

  predicate StepsBelow(calls: seq<Call>, step: nat) {
    forall i :: 0 <= i < |calls| ==> Step(calls[i]) < step
  }

  /** The calls of the storing stage after `made`: the code lookup, then (when it answers) the
      persist under the key for that code, then (when the persist succeeds) the event. */
  lemma StoringCalls(a: Addressing, c: Collaborators, dispatcher: Dispatcher, command: TranslateCommand, today: Date,
                     made: seq<Call>, translations: seq<string>)
    ensures var run := Storing(a, c, dispatcher, command, today, made, translations);
      var code := c.translator.getLanguageCode(command.toLanguage);
      var m := |made|;
      && |run.calls| >= m + 1 && run.calls[..m] == made && run.calls[m] == GetLanguageCode(command.toLanguage)
      && (code.Err? ==> |run.calls| == m + 1 && run.outcome == Fail(code.error))
      && (code.Ok? ==>
            var fileKey := a.fileKey(today, command.educationId, code.value);
            var event := TranslatedEvent(command.educationId, None, command.toLanguage, fileKey);
            && |run.calls| >= m + 2 && run.calls[m + 1] == PersistTranslations(fileKey, translations)
            && (c.persister(fileKey, translations).Fail? ==>
                  |run.calls| == m + 2 && run.outcome == c.persister(fileKey, translations))
            && (c.persister(fileKey, translations).Pass? ==>
                  |run.calls| == m + 3 && run.calls[m + 2] == RaiseEvent(event) && run.outcome == dispatcher(event)))
  {
    var run := Storing(a, c, dispatcher, command, today, made, translations);
    var language := GetLanguageCode(command.toLanguage);
    match c.translator.getLanguageCode(command.toLanguage)
    case Err(_) =>
      assert run.calls == made + [language];
    case Ok(code) =>
      var fileKey := a.fileKey(today, command.educationId, code);
      var persist := PersistTranslations(fileKey, translations);
      if c.persister(fileKey, translations).Fail? {
        assert run.calls == made + [language, persist];
      } else {
        var event := TranslatedEvent(command.educationId, None, command.toLanguage, fileKey);
        assert run.calls == made + [language, persist, RaiseEvent(event)];
      }
  }

  /** A persist in the storing stage after `made` comes right after the code lookup, which
      answered; it stores the stage's translations under the key for that code, and the
      event follows it exactly when it succeeds. */
  lemma StoredPersist(a: Addressing, c: Collaborators, dispatcher: Dispatcher, command: TranslateCommand, today: Date,
                      made: seq<Call>, translations: seq<string>, i: nat)
    requires |made| <= i < |Storing(a, c, dispatcher, command, today, made, translations).calls|
    requires Storing(a, c, dispatcher, command, today, made, translations).calls[i].PersistTranslations?
    ensures var run := Storing(a, c, dispatcher, command, today, made, translations);
      var code := c.translator.getLanguageCode(command.toLanguage);
      && code.Ok? && i == |made| + 1
      && var fileKey := a.fileKey(today, command.educationId, code.value);
         var event := TranslatedEvent(command.educationId, None, command.toLanguage, fileKey);
         && run.calls[i] == PersistTranslations(fileKey, translations)
         && (c.persister(fileKey, translations).Fail? ==>
               |run.calls| == i + 1 && run.outcome == c.persister(fileKey, translations))
         && (c.persister(fileKey, translations).Pass? ==>
               |run.calls| == i + 2 && run.calls[i + 1] == RaiseEvent(event) && run.outcome == dispatcher(event))
  {
    StoringCalls(a, c, dispatcher, command, today, made, translations);
  }

  /** An event in the storing stage after `made` is its last call, right after a persist that
      succeeded under the key for the code the lookup answered. */
  lemma StoredEvent(a: Addressing, c: Collaborators, dispatcher: Dispatcher, command: TranslateCommand, today: Date,
                    made: seq<Call>, translations: seq<string>, i: nat)
    requires |made| <= i < |Storing(a, c, dispatcher, command, today, made, translations).calls|
    requires Storing(a, c, dispatcher, command, today, made, translations).calls[i].RaiseEvent?
    ensures var run := Storing(a, c, dispatcher, command, today, made, translations);
      var code := c.translator.getLanguageCode(command.toLanguage);
      && code.Ok? && i == |made| + 2 == |run.calls| - 1
      && var fileKey := a.fileKey(today, command.educationId, code.value);
         var event := TranslatedEvent(command.educationId, None, command.toLanguage, fileKey);
         && run.calls[i - 1] == PersistTranslations(fileKey, translations)
         && c.persister(fileKey, translations) == Pass
         && run.calls[i] == RaiseEvent(event) && run.outcome == dispatcher(event)
  {
    StoringCalls(a, c, dispatcher, command, today, made, translations);
  }

  /** The calls before the code lookup: the download, the extraction and some translations. */
  lemma TranslatedPrefix(uri: string, content: string, fragments: seq<string>, toLanguage: Language, count: nat)
    requires count <= |fragments|
    ensures StepsBelow([GetContent(uri)] + [ExtractText(content)] + TranslateCalls(fragments, toLanguage, count), 3)
  {
    var made := [GetContent(uri)] + [ExtractText(content)] + TranslateCalls(fragments, toLanguage, count);
    forall i | 0 <= i < |made| ensures Step(made[i]) < 3 {
      if i >= 2 {
        assert made[i] == TranslateCalls(fragments, toLanguage, count)[i - 2];
      }
    }
  }

  /** The translating stage after `made`: the translate calls of the attempted fragments, then
      only calls of later steps. */
  lemma TranslatingCalls(a: Addressing, c: Collaborators, dispatcher: Dispatcher, command: TranslateCommand, today: Date,
                         made: seq<Call>, fragments: seq<string>)
    ensures var calls := Translating(a, c, dispatcher, command, today, made, fragments).calls;
      var n := Attempted(Answers(c.translator, fragments, command.toLanguage));
      && |made| + n <= |calls|
      && calls[..|made| + n] == made + TranslateCalls(fragments, command.toLanguage, n)
      && forall i :: |made| + n <= i < |calls| ==> 3 <= Step(calls[i])
  {
    var answers := Answers(c.translator, fragments, command.toLanguage);
    if FirstFailure(answers) >= |fragments| {
      var translated := made + TranslateCalls(fragments, command.toLanguage, |fragments|);
      StoringCalls(a, c, dispatcher, command, today, translated, Values(answers));
    }
  }

  /** Every attempted fragment but the last was translated, and fewer than all are attempted
      only because the last attempted one threw. */
  lemma AttemptedAnswers(translator: Translator, fragments: seq<string>, toLanguage: Language)
    ensures var n := Attempted(Answers(translator, fragments, toLanguage));
      && n <= |fragments|
      && (forall j :: 0 <= j < n - 1 ==> translator.translateText(fragments[j], toLanguage).Ok?)
      && (n < |fragments| ==> 1 <= n && translator.translateText(fragments[n - 1], toLanguage).Err?)
  {
    var answers := Answers(translator, fragments, toLanguage);
    var n := Attempted(answers);
    forall j | 0 <= j < n - 1 ensures translator.translateText(fragments[j], toLanguage).Ok? {
      assert answers[j].Ok?;
    }
    if n < |fragments| {
      assert answers[n - 1].Err?;
    }
  }

  /** The extracting stage after `made`: the extraction, then only calls of later steps; an
      extraction that throws ends the handler with its exception. */
  lemma ExtractingCalls(a: Addressing, c: Collaborators, dispatcher: Dispatcher, command: TranslateCommand, today: Date,
                        made: seq<Call>, content: string)
    ensures var run := Extracting(a, c, dispatcher, command, today, made, content);
      && |made| + 1 <= |run.calls|
      && run.calls[..|made| + 1] == made + [ExtractText(content)]
      && (forall i :: |made| + 1 <= i < |run.calls| ==> 2 <= Step(run.calls[i]))
      && (c.textExtractor(content).Err? ==>
            |run.calls| == |made| + 1 && run.outcome == Fail(c.textExtractor(content).error))
  {
    var extracted := made + [ExtractText(content)];
    match c.textExtractor(content)
    case Err(_) =>
    case Ok(fragments) =>
      var calls := Translating(a, c, dispatcher, command, today, extracted, fragments).calls;
      var n := Attempted(Answers(c.translator, fragments, command.toLanguage));
      TranslatingCalls(a, c, dispatcher, command, today, extracted, fragments);
      forall i | |extracted| <= i < |calls| ensures 2 <= Step(calls[i]) {
        if i < |extracted| + n {
          assert calls[i] == calls[..|extracted| + n][i] == TranslateCalls(fragments, command.toLanguage, n)[i - |extracted|];
        }
      }
      assert calls[..|extracted|] == calls[..|extracted| + n][..|extracted|];
  }

  /** A command to ChineseSimplified is refused before anything else: the handler throws
      `ArgumentOutOfRangeException` for `ToLanguage` and makes no call at all. Every other
      language gets past the guard and leads to at least the download. */
  lemma RefusesChineseFirst(a: Addressing, c: Collaborators, dispatcher: Dispatcher, command: TranslateCommand, today: Date)
    ensures var run := Handle(a, c, dispatcher, command, today);
      && (run.calls == [] <==> command.toLanguage == ChineseSimplified)
      && (command.toLanguage == ChineseSimplified ==>
            run.outcome == Fail(ArgumentOutOfRangeException("ToLanguage", "Chinese not supported")))
  {
  }

  /** Past the guard, the education page at the command's id is downloaded first and never
      again. The extractor is called next, only when the download succeeded, with the
      downloaded content, and never again. A download or an extraction that throws ends the
      handler with its exception. */
  lemma DownloadsThenExtracts(a: Addressing, c: Collaborators, dispatcher: Dispatcher, command: TranslateCommand, today: Date)
    requires command.toLanguage != ChineseSimplified
    ensures var run := Handle(a, c, dispatcher, command, today);
      var download := c.downloader(a.educationUri(command.educationId));
      && |run.calls| >= 1 && run.calls[0] == GetContent(a.educationUri(command.educationId))
      && (forall i :: 1 <= i < |run.calls| ==> 1 <= Step(run.calls[i]))
      && (download.Err? ==> |run.calls| == 1 && run.outcome == Fail(download.error))
      && (download.Ok? ==>
            && |run.calls| >= 2 && run.calls[1] == ExtractText(download.value)
            && (forall i :: 2 <= i < |run.calls| ==> 2 <= Step(run.calls[i]))
            && (c.textExtractor(download.value).Err? ==>
                  |run.calls| == 2 && run.outcome == Fail(c.textExtractor(download.value).error)))
  {
    var calls := Handle(a, c, dispatcher, command, today).calls;
    match c.downloader(a.educationUri(command.educationId))
    case Err(_) =>
    case Ok(content) =>
      ExtractingCalls(a, c, dispatcher, command, today, [GetContent(a.educationUri(command.educationId))], content);
      assert calls[0] == calls[..2][0] && calls[1] == calls[..2][1];
  }

  /** Once the profile is downloaded and its fragments extracted, the translator is called for
      the fragments in fragment order, each time with the command's language, and no other
      call translates. Every translated fragment but the last returned a translation, and the
      loop stops before the last fragment only because the last translated one threw. */
  lemma TranslatesFragmentsInOrder(a: Addressing, c: Collaborators, dispatcher: Dispatcher, command: TranslateCommand, today: Date,
                                   content: string, fragments: seq<string>)
    requires command.toLanguage != ChineseSimplified
    requires c.downloader(a.educationUri(command.educationId)) == Ok(content)
    requires c.textExtractor(content) == Ok(fragments)
    ensures var calls := Handle(a, c, dispatcher, command, today).calls;
      var n := Attempted(Answers(c.translator, fragments, command.toLanguage));
      && 2 + n <= |calls|
      && calls[..2 + n] == [GetContent(a.educationUri(command.educationId))] + [ExtractText(content)] + TranslateCalls(fragments, command.toLanguage, n)
      && (forall i :: 2 + n <= i < |calls| ==> !calls[i].TranslateText?)
      && (forall j :: 0 <= j < n - 1 ==> c.translator.translateText(fragments[j], command.toLanguage).Ok?)
      && (n < |fragments| ==> 1 <= n && c.translator.translateText(fragments[n - 1], command.toLanguage).Err?)
  {
    var made := [GetContent(a.educationUri(command.educationId))] + [ExtractText(content)];
    assert Handle(a, c, dispatcher, command, today) == Translating(a, c, dispatcher, command, today, made, fragments);
    TranslatingCalls(a, c, dispatcher, command, today, made, fragments);
    AttemptedAnswers(c.translator, fragments, command.toLanguage);
  }

  /** A translation that throws stops the handler: no code lookup, no persist and no event
      follow, and the handler ends with the exception of the first fragment that failed. */
  lemma StopsAtFailedTranslation(a: Addressing, c: Collaborators, dispatcher: Dispatcher, command: TranslateCommand, today: Date,
                                 content: string, fragments: seq<string>, j: nat)
    requires command.toLanguage != ChineseSimplified
    requires c.downloader(a.educationUri(command.educationId)) == Ok(content)
    requires c.textExtractor(content) == Ok(fragments)
    requires j < |fragments| && c.translator.translateText(fragments[j], command.toLanguage).Err?
    ensures var run := Handle(a, c, dispatcher, command, today);
      var n := Attempted(Answers(c.translator, fragments, command.toLanguage));
      && 1 <= n <= j + 1
      && (forall i :: 0 <= i < |run.calls| ==> Step(run.calls[i]) <= 2)
      && run.outcome.Fail?
      && c.translator.translateText(fragments[n - 1], command.toLanguage) == Err(run.outcome.error)
  {
    var answers := Answers(c.translator, fragments, command.toLanguage);
    assert answers[j].Err?;
    var made := [GetContent(a.educationUri(command.educationId))] + [ExtractText(content)];
    var failed := FirstFailure(answers);
    TranslatedPrefix(a.educationUri(command.educationId), content, fragments, command.toLanguage, failed + 1);
  }

  /** Nothing is stored before every fragment is translated: a code lookup, a persist or an
      event is only ever made when the download, the extraction and every translation
      succeeded, and the run is then the storing stage after exactly those calls, with the
      translations in fragment order. */
  lemma StoresOnlyAfterTranslating(a: Addressing, c: Collaborators, dispatcher: Dispatcher, command: TranslateCommand, today: Date)
    ensures var run := Handle(a, c, dispatcher, command, today);
      (exists i :: 0 <= i < |run.calls| && 3 <= Step(run.calls[i])) ==>
        && c.downloader(a.educationUri(command.educationId)).Ok?
        && var content := c.downloader(a.educationUri(command.educationId)).value;
           && c.textExtractor(content).Ok?
           && var fragments := c.textExtractor(content).value;
              var answers := Answers(c.translator, fragments, command.toLanguage);
              && FirstFailure(answers) == |fragments|
              && run == Storing(a, c, dispatcher, command, today,
                                [GetContent(a.educationUri(command.educationId))] + [ExtractText(content)]
                                  + TranslateCalls(fragments, command.toLanguage, |fragments|),
                                Values(answers))
  {
    if command.toLanguage == ChineseSimplified {
      return;
    }
    var calls := Handle(a, c, dispatcher, command, today).calls;
    match c.downloader(a.educationUri(command.educationId))
    case Err(_) =>
      assert calls == [GetContent(a.educationUri(command.educationId))];
    case Ok(content) =>
      match c.textExtractor(content)
      case Err(_) =>
        assert calls == [GetContent(a.educationUri(command.educationId))] + [ExtractText(content)];
      case Ok(fragments) =>
        var answers := Answers(c.translator, fragments, command.toLanguage);
        var failed := FirstFailure(answers);
        if failed < |fragments| {
          TranslatedPrefix(a.educationUri(command.educationId), content, fragments, command.toLanguage, failed + 1);
        }
  }

  /** The converse: when the language is not ChineseSimplified and the download, the
      extraction and every translation succeed, the run is the storing stage after exactly
      those calls, with one translation per fragment in fragment order (none when nothing was
      extracted). The code lookup follows; when it answers, the translations are persisted
      under the key for its code, and when the persist succeeds too, the event is raised as
      the last call and the handler ends as raising it does. */
  lemma StoresWhenAllSucceed(a: Addressing, c: Collaborators, dispatcher: Dispatcher, command: TranslateCommand, today: Date,
                             content: string, fragments: seq<string>)
    requires command.toLanguage != ChineseSimplified
    requires c.downloader(a.educationUri(command.educationId)) == Ok(content)
    requires c.textExtractor(content) == Ok(fragments)
    requires forall j :: 0 <= j < |fragments| ==> c.translator.translateText(fragments[j], command.toLanguage).Ok?
    ensures var answers := Answers(c.translator, fragments, command.toLanguage);
      && FirstFailure(answers) == |fragments|
      && Handle(a, c, dispatcher, command, today)
           == Storing(a, c, dispatcher, command, today,
                      [GetContent(a.educationUri(command.educationId))] + [ExtractText(content)]
                        + TranslateCalls(fragments, command.toLanguage, |fragments|),
                      Values(answers))
    ensures var run := Handle(a, c, dispatcher, command, today);
      var translations := Values(Answers(c.translator, fragments, command.toLanguage));
      var code := c.translator.getLanguageCode(command.toLanguage);
      var m := 2 + |fragments|;
      && |translations| == |fragments|
      && (forall j :: 0 <= j < |fragments| ==> c.translator.translateText(fragments[j], command.toLanguage) == Ok(translations[j]))
      && |run.calls| >= m + 1 && run.calls[m] == GetLanguageCode(command.toLanguage)
      && (code.Ok? ==>
            var fileKey := a.fileKey(today, command.educationId, code.value);
            var event := TranslatedEvent(command.educationId, None, command.toLanguage, fileKey);
            && |run.calls| >= m + 2 && run.calls[m + 1] == PersistTranslations(fileKey, translations)
            && (c.persister(fileKey, translations).Pass? ==>
                  |run.calls| == m + 3 && run.calls[m + 2] == RaiseEvent(event) && run.outcome == dispatcher(event)))
  {
    var answers := Answers(c.translator, fragments, command.toLanguage);
    forall j | 0 <= j < |fragments| ensures answers[j].Ok? {
      assert answers[j] == c.translator.translateText(fragments[j], command.toLanguage);
    }
    assert FirstFailure(answers) == |fragments|;
    var made := [GetContent(a.educationUri(command.educationId))] + [ExtractText(content)]
                  + TranslateCalls(fragments, command.toLanguage, |fragments|);
    StoringCalls(a, c, dispatcher, command, today, made, Values(answers));
  }

  /** A run that made a call of the storing stage is that stage, after exactly the download,
      the extraction and one translation per fragment. */
  lemma StoredCalls(a: Addressing, c: Collaborators, dispatcher: Dispatcher, command: TranslateCommand, today: Date, i: nat)
    requires i < |Handle(a, c, dispatcher, command, today).calls|
    requires 3 <= Step(Handle(a, c, dispatcher, command, today).calls[i])
    ensures c.downloader(a.educationUri(command.educationId)).Ok?
    ensures var content := c.downloader(a.educationUri(command.educationId)).value;
      && c.textExtractor(content).Ok?
      && var fragments := c.textExtractor(content).value;
         var answers := Answers(c.translator, fragments, command.toLanguage);
         var made := [GetContent(a.educationUri(command.educationId))] + [ExtractText(content)]
                       + TranslateCalls(fragments, command.toLanguage, |fragments|);
         && FirstFailure(answers) == |fragments|
         && |made| <= i
         && Handle(a, c, dispatcher, command, today) == Storing(a, c, dispatcher, command, today, made, Values(answers))
  {
    StoresOnlyAfterTranslating(a, c, dispatcher, command, today);
    var content := c.downloader(a.educationUri(command.educationId)).value;
    var fragments := c.textExtractor(content).value;
    TranslatedPrefix(a.educationUri(command.educationId), content, fragments, command.toLanguage, |fragments|);
  }

  /** A run that made a call of the storing stage is that stage, after the calls `made`,
      which are all of earlier steps. */
  lemma StoredRun(a: Addressing, c: Collaborators, dispatcher: Dispatcher, command: TranslateCommand, today: Date, i: nat)
    returns (made: seq<Call>, translations: seq<string>)
    requires i < |Handle(a, c, dispatcher, command, today).calls|
    requires 3 <= Step(Handle(a, c, dispatcher, command, today).calls[i])
    ensures |made| <= i
    ensures Handle(a, c, dispatcher, command, today) == Storing(a, c, dispatcher, command, today, made, translations)
  {
    StoredCalls(a, c, dispatcher, command, today, i);
    var content := c.downloader(a.educationUri(command.educationId)).value;
    var fragments := c.textExtractor(content).value;
    made := [GetContent(a.educationUri(command.educationId))] + [ExtractText(content)]
              + TranslateCalls(fragments, command.toLanguage, |fragments|);
    translations := Values(Answers(c.translator, fragments, command.toLanguage));
  }

  /** What is persisted is the list of translations, one per extracted fragment and in fragment
      order, under the key built from today's date, the command's id and the translator's code
      for the command's language. */
  lemma PersistsEveryTranslation(a: Addressing, c: Collaborators, dispatcher: Dispatcher, command: TranslateCommand, today: Date, i: nat)
    requires i < |Handle(a, c, dispatcher, command, today).calls|
    requires Handle(a, c, dispatcher, command, today).calls[i].PersistTranslations?
    ensures c.downloader(a.educationUri(command.educationId)).Ok?
    ensures var content := c.downloader(a.educationUri(command.educationId)).value;
      && c.textExtractor(content).Ok?
      && var fragments := c.textExtractor(content).value;
         var persisted := Handle(a, c, dispatcher, command, today).calls[i];
         && |persisted.translations| == |fragments|
         && (forall j :: 0 <= j < |fragments| ==>
               c.translator.translateText(fragments[j], command.toLanguage) == Ok(persisted.translations[j]))
         && c.translator.getLanguageCode(command.toLanguage).Ok?
         && persisted.key == a.fileKey(today, command.educationId, c.translator.getLanguageCode(command.toLanguage).value)
  {
    StoredCalls(a, c, dispatcher, command, today, i);
    var content := c.downloader(a.educationUri(command.educationId)).value;
    var fragments := c.textExtractor(content).value;
    var answers := Answers(c.translator, fragments, command.toLanguage);
    var made := [GetContent(a.educationUri(command.educationId))] + [ExtractText(content)]
                  + TranslateCalls(fragments, command.toLanguage, |fragments|);
    StoredPersist(a, c, dispatcher, command, today, made, Values(answers), i);
    forall j | 0 <= j < |fragments|
      ensures c.translator.translateText(fragments[j], command.toLanguage) == Ok(Values(answers)[j])
    {
      assert answers[j] == c.translator.translateText(fragments[j], command.toLanguage);
    }
  }

  /** A persist that throws ends the handler with that exception and no event; a persist that
      succeeds is followed by exactly one event, the last call, carrying the command's id and
      language and the key just persisted, and the handler ends as raising it does. */
  lemma RaisesOnlyAfterPersist(a: Addressing, c: Collaborators, dispatcher: Dispatcher, command: TranslateCommand, today: Date, i: nat)
    requires i < |Handle(a, c, dispatcher, command, today).calls|
    requires Handle(a, c, dispatcher, command, today).calls[i].PersistTranslations?
    ensures var run := Handle(a, c, dispatcher, command, today);
      var persisted := run.calls[i];
      var event := TranslatedEvent(command.educationId, None, command.toLanguage, persisted.key);
      && (c.persister(persisted.key, persisted.translations).Fail? ==>
            |run.calls| == i + 1 && run.outcome == c.persister(persisted.key, persisted.translations))
      && (c.persister(persisted.key, persisted.translations).Pass? ==>
            |run.calls| == i + 2 && run.calls[i + 1] == RaiseEvent(event) && run.outcome == dispatcher(event))
  {
    var made, translations := StoredRun(a, c, dispatcher, command, today, i);
    StoredPersist(a, c, dispatcher, command, today, made, translations, i);
  }

  /** An event is raised only as the last call, right after a persist that succeeded, and it
      carries the command's id and language and the persisted key. */
  lemma EventFollowsPersist(a: Addressing, c: Collaborators, dispatcher: Dispatcher, command: TranslateCommand, today: Date, i: nat)
    requires i < |Handle(a, c, dispatcher, command, today).calls|
    requires Handle(a, c, dispatcher, command, today).calls[i].RaiseEvent?
    ensures var run := Handle(a, c, dispatcher, command, today);
      && 1 <= i == |run.calls| - 1
      && run.calls[i - 1].PersistTranslations?
      && c.persister(run.calls[i - 1].key, run.calls[i - 1].translations) == Pass
      && run.calls[i].event == TranslatedEvent(command.educationId, None, command.toLanguage, run.calls[i - 1].key)
      && run.outcome == dispatcher(run.calls[i].event)
  {
    var made, translations := StoredRun(a, c, dispatcher, command, today, i);
    StoredEvent(a, c, dispatcher, command, today, made, translations, i);
  }

  /** The handler completes without an exception only by raising the event, as its last call,
      with the dispatcher accepting it. */
  lemma SucceedsOnlyByRaising(a: Addressing, c: Collaborators, dispatcher: Dispatcher, command: TranslateCommand, today: Date)
    ensures var run := Handle(a, c, dispatcher, command, today);
      run.outcome.Pass? ==>
        && |run.calls| >= 1 && run.calls[|run.calls| - 1].RaiseEvent?
        && dispatcher(run.calls[|run.calls| - 1].event) == Pass
  {
    if command.toLanguage == ChineseSimplified {
      return;
    }
    match c.downloader(a.educationUri(command.educationId))
    case Err(_) =>
    case Ok(content) =>
      match c.textExtractor(content)
      case Err(_) =>
      case Ok(fragments) =>
        var answers := Answers(c.translator, fragments, command.toLanguage);
        if FirstFailure(answers) >= |fragments| {
          var made := [GetContent(a.educationUri(command.educationId))] + [ExtractText(content)] + TranslateCalls(fragments, command.toLanguage, |fragments|);
          StoringCalls(a, c, dispatcher, command, today, made, Values(answers));
        }
  }

  /** The constructor's null checks, in the order it makes them. */
  function ConstructorGuard(downloader: Option<Downloader>, textExtractor: Option<TextExtractor>,
                            translator: Option<Translator>, persister: Option<Persister>): (r: Outcome<Exception>)
    ensures r.Pass? <==> downloader.Some? && textExtractor.Some? && translator.Some? && persister.Some?
    ensures downloader.None? ==> r == Fail(ArgumentNullException("downloader"))
    ensures downloader.Some? && textExtractor.None? ==> r == Fail(ArgumentNullException("textExtractor"))
    ensures downloader.Some? && textExtractor.Some? && translator.None? ==>
      r == Fail(ArgumentNullException("translator"))
    ensures downloader.Some? && textExtractor.Some? && translator.Some? && persister.None? ==>
      r == Fail(ArgumentNullException("persister"))
  {
    var arguments := [("downloader", downloader.Some?), ("textExtractor", textExtractor.Some?),
                      ("translator", translator.Some?), ("persister", persister.Some?)];
    assert arguments[0].1 == downloader.Some? && arguments[1].1 == textExtractor.Some?;
    assert arguments[2].1 == translator.Some? && arguments[3].1 == persister.Some?;
    NullGuards(arguments)
  }

  /** `ImprovedTranslateCommandHandler` (for `TranslateCommand`), once its
      constructor's checks have passed. */
  class ImprovedTranslateCommandHandler {
    const downloader: Downloader
    const textExtractor: TextExtractor
    const translator: Translator
    const persister: Persister

    /** The calls made on the collaborators and the dispatcher so far, oldest first. */
    var calls: seq<Call>

    constructor(downloader: Downloader, textExtractor: TextExtractor, translator: Translator, persister: Persister)
      ensures this.downloader == downloader && this.textExtractor == textExtractor
      ensures this.translator == translator && this.persister == persister
      ensures calls == []
    {
      this.downloader := downloader;
      this.textExtractor := textExtractor;
      this.translator := translator;
      this.persister := persister;
      calls := [];
    }

    function Collaborating(): Collaborators {
      Collaborators(downloader, textExtractor, translator, persister)
    }

    /** The `foreach` over the fragments: one translate call per fragment, in order, until one
        throws; the translations collected, or the exception. */
    method TranslateFragments(fragments: seq<string>, toLanguage: Language) returns (r: Result<seq<string>, Exception>)
      modifies this
      ensures calls == old(calls) + TranslateCalls(fragments, toLanguage, Attempted(Answers(translator, fragments, toLanguage)))
      ensures var answers := Answers(translator, fragments, toLanguage);
        var failed := FirstFailure(answers);
        r == if failed < |fragments| then Err(answers[failed].error) else Ok(Values(answers))
    {
      ghost var answers := Answers(translator, fragments, toLanguage);
      var translations: seq<string> := [];
      var i := 0;
      while i < |fragments|
        invariant i <= |fragments| && i <= FirstFailure(answers)
        invariant |translations| == i
        invariant forall j :: 0 <= j < i ==> answers[j] == Ok(translations[j])
        invariant calls == old(calls) + TranslateCalls(fragments, toLanguage, i)
      {
        calls := calls + [TranslateText(fragments[i], toLanguage)];
        assert TranslateCalls(fragments, toLanguage, i + 1) ==
          TranslateCalls(fragments, toLanguage, i) + [TranslateText(fragments[i], toLanguage)];
        var translatedText := translator.translateText(fragments[i], toLanguage);
        if translatedText.Err? {
          assert answers[i] == translatedText && i == FirstFailure(answers);
          return Err(translatedText.error);
        }
        translations := translations + [translatedText.value];
        i := i + 1;
      }
      assert translations == Values(answers);
      r := Ok(translations);
    }

    /** `GenerateKey`: asks the translator for the language's code and builds the storage key
        for today's date; an exception from the translator is propagated. */
    method GenerateKey(command: TranslateCommand, today: Date) returns (key: Result<string, Exception>)
      modifies this
      ensures calls == old(calls) + [GetLanguageCode(command.toLanguage)]
      ensures key == match translator.getLanguageCode(command.toLanguage)
                     case Err(e) => Err(e)
                     case Ok(code) => Ok(FileKey(today, command.educationId, code))
    {
      calls := calls + [GetLanguageCode(command.toLanguage)];
      var code := translator.getLanguageCode(command.toLanguage);
      if code.Err? {
        return Err(code.error);
      }
      key := Ok(FileKey(today, command.educationId, code.value));
    }

    /** The end of `HandleAsync`, once every fragment is translated: generate the key, persist
        the translations under it, raise the event. */
    method StoreAndRaise(dispatcher: Dispatcher, command: TranslateCommand, today: Date, translations: seq<string>)
      returns (outcome: Outcome<Exception>)
      modifies this
      ensures calls == Storing(Studentum, Collaborating(), dispatcher, command, today, old(calls), translations).calls
      ensures outcome == Storing(Studentum, Collaborating(), dispatcher, command, today, old(calls), translations).outcome
    {
      var key := GenerateKey(command, today);
      if key.Err? {
        return Fail(key.error);
      }
      var fileKey := key.value;
      calls := calls + [PersistTranslations(fileKey, translations)];
      var persisted := persister(fileKey, translations);
      if persisted.Fail? {
        return persisted;
      }
      var event := TranslatedEvent(command.educationId, None, command.toLanguage, fileKey);
      calls := calls + [RaiseEvent(event)];
      outcome := dispatcher(event);
    }

    /** The `foreach` and what follows it: translate the fragments, then, when every one was
        translated, store them and raise the event. */
    method TranslateAndStore(dispatcher: Dispatcher, command: TranslateCommand, today: Date, fragments: seq<string>)
      returns (outcome: Outcome<Exception>)
      modifies this
      ensures calls == Translating(Studentum, Collaborating(), dispatcher, command, today, old(calls), fragments).calls
      ensures outcome == Translating(Studentum, Collaborating(), dispatcher, command, today, old(calls), fragments).outcome
    {
      var translations := TranslateFragments(fragments, command.toLanguage);
      if translations.Err? {
        return Fail(translations.error);
      }
      outcome := StoreAndRaise(dispatcher, command, today, translations.value);
    }

    method HandleAsync(dispatcher: Dispatcher, command: TranslateCommand, today: Date) returns (outcome: Outcome<Exception>)
      modifies this
      ensures calls == old(calls) + Handle(Studentum, Collaborating(), dispatcher, command, today).calls
      ensures outcome == Handle(Studentum, Collaborating(), dispatcher, command, today).outcome
    {
      if command.toLanguage == ChineseSimplified {
        return Fail(ChineseNotSupported);
      }
      var uriToTranslate := EducationUri(command.educationId);
      calls := calls + [GetContent(uriToTranslate)];
      var content := downloader(uriToTranslate);
      if content.Err? {
        return Fail(content.error);
      }
      calls := calls + [ExtractText(content.value)];
      var contentToTranslate := textExtractor(content.value);
      if contentToTranslate.Err? {
        return Fail(contentToTranslate.error);
      }
      ghost var made := [GetContent(uriToTranslate)] + [ExtractText(content.value)];
      assert calls == old(calls) + made;
      outcome := TranslateAndStore(dispatcher, command, today, contentToTranslate.value);
      TranslatingAfter(Studentum, Collaborating(), dispatcher, command, today, old(calls), made, contentToTranslate.value);
    }
  }
}
