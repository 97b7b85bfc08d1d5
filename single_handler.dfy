/** `SingleTranslateCommandHandler`: the whole workflow in one class. It refuses
    ChineseSimplified, fetches the education page over HTTP, extracts its texts, sends one
    Amazon Translate request per text, puts the merged translations into S3 under a dated key
    and raises `TranslatedEvent`. The HTTP client, the HTML extraction, the Amazon clients and
    the dispatcher are parameters: each answers or throws, and a throw ends the handler with
    that exception. */
module SingleTranslation {
  import opened Outcomes
  import opened Messages
  import opened Locations
  import opened TranslationLoop
  import opened AmazonTranslate
  import opened AmazonS3Persistence

  /** A GET of the page at an address, its status checked and its body read as a string. */
  type HttpGet = string -> Result<string, Exception>

  /** `ExtractTexts`: the decoded text nodes under the page's body paragraphs. */
  type TextsExtractor = string -> Result<seq<string>, Exception>

  /** `IDispatcher.RaiseEventAsync`. */
  type Dispatcher = TranslatedEvent -> Outcome<Exception>

  /** What the constructor receives, once its checks have passed. */
  datatype Dependencies = Dependencies(
    http: HttpGet,
    extractTexts: TextsExtractor,
    translate: TranslateClient,
    s3: S3Client,
    options: TranslateOptions)

  /** One call the handler makes on the HTTP client, the Amazon clients or the dispatcher. */
  datatype Call =
    | SendAsync(uri: string)
    | TranslateTextAsync(translateRequest: TranslateTextRequest)
    | PutObjectAsync(putRequest: PutObjectRequest)
    | RaiseEvent(event: TranslatedEvent)

  /** What the handler throws, before any call, for a command to ChineseSimplified. */
  const ChineseNotSupported := ArgumentOutOfRangeException("ToLanguage", "Chinese not supported")

  /** The calls one handling makes, in order, and how it ends. */
  datatype Run = Run(calls: seq<Call>, outcome: Outcome<Exception>)

  /** `TranslateContent`'s request for a text, given the target language's code: from the code
      of Swedish, to the target, with the text as it is. */
  function Request(text: string, target: string): (request: TranslateTextRequest)
    ensures request.sourceLanguageCode == "sv" && request.targetLanguageCode == target
    ensures request.text == text
  {
    TranslateTextRequest(LanguageMappings[SourceLanguage], target, text)
  }

  /** What translating each text returns or throws. */
  function Answers(translate: TranslateClient, texts: seq<string>, target: string): seq<Result<string, Exception>>
  {
    seq(|texts|, j requires 0 <= j < |texts| => translate(Request(texts[j], target)))
  }

  /** The translate calls for the first `count` texts. */
  function TranslateCalls(texts: seq<string>, target: string, count: nat): seq<Call>
    requires count <= |texts|
  {
    seq(count, j requires 0 <= j < count => TranslateTextAsync(Request(texts[j], target)))
  }

  /** `HandleAsync`, step by step: the calls it makes, in order, and how it ends. Every step
      that throws ends it with that exception. */
  function Handle(a: Addressing, d: Dependencies, dispatcher: Dispatcher, command: TranslateCommand, today: Date): (run: Run)
    ensures run.calls == [] <==> command.toLanguage == ChineseSimplified
    ensures command.toLanguage == ChineseSimplified ==> run.outcome == Fail(ChineseNotSupported)
    ensures command.toLanguage != ChineseSimplified ==> run.calls[0] == SendAsync(a.educationUri(command.educationId))
  {
    if command.toLanguage == ChineseSimplified then Run([], Fail(ChineseNotSupported))
    else
      MappedLanguages(command.toLanguage);
      var target := LanguageMappings[command.toLanguage];
      var made := [SendAsync(a.educationUri(command.educationId))];
      match d.http(a.educationUri(command.educationId))
      case Err(e) => Run(made, Fail(e))
      case Ok(content) =>
        match d.extractTexts(content)
        case Err(e) => Run(made, Fail(e))
        case Ok(texts) => Translating(a, d, dispatcher, command, today, target, made, texts)
  }

  /** From the extracted texts on, after the calls `made`: they are translated in order until
      one throws. */
  function Translating(a: Addressing, d: Dependencies, dispatcher: Dispatcher, command: TranslateCommand, today: Date,
                       target: string, made: seq<Call>, texts: seq<string>): Run
  {
    var answers := Answers(d.translate, texts, target);
    var failed := FirstFailure(answers);
    if failed < |texts| then
      Run(made + TranslateCalls(texts, target, failed + 1), Fail(answers[failed].error))
    else
      Storing(a, d, dispatcher, command, today, target, made + TranslateCalls(texts, target, |texts|), Values(answers))
  }

  /** The put request `StoreTranslations` sends: under the key, into the configured bucket, as
      plain text, with a body that is empty exactly when there are no translations and that
      otherwise opens with a separator line. */
  function PutRequest(options: TranslateOptions, fileKey: string, translations: seq<string>): (request: PutObjectRequest)
    ensures request.key == fileKey && request.bucketName == options.resultBucket
    ensures request.contentType == "text/plain"
    ensures request.contentBody == "" <==> translations == []
    ensures translations != [] ==> OpensWithSeparator(request.contentBody)
  {
    PutObjectRequest(fileKey, options.resultBucket, "text/plain", Merged(translations))
  }

  /** From the collected translations on: the put under the key, then the event. */
  function Storing(a: Addressing, d: Dependencies, dispatcher: Dispatcher, command: TranslateCommand, today: Date,
                   target: string, made: seq<Call>, translations: seq<string>): Run
  {
    var fileKey := a.fileKey(today, command.educationId, target);
    var request := PutRequest(d.options, fileKey, translations);
    var made := made + [PutObjectAsync(request)];
    match d.s3(request)
    case Fail(e) => Run(made, Fail(e))
    case Pass =>
      var event := TranslatedEvent(command.educationId, None, command.toLanguage, fileKey);
      Run(made + [RaiseEvent(event)], dispatcher(event))
  }

  /** The storing stage makes the same calls, and ends the same way, whatever was called
      before it. */
  lemma StoringAfter(a: Addressing, d: Dependencies, dispatcher: Dispatcher, command: TranslateCommand, today: Date,
                     target: string, before: seq<Call>, made: seq<Call>, translations: seq<string>)
    ensures var run := Storing(a, d, dispatcher, command, today, target, made, translations);
      Storing(a, d, dispatcher, command, today, target, before + made, translations) == Run(before + run.calls, run.outcome)
  {
    var fileKey := a.fileKey(today, command.educationId, target);
    var put := PutObjectAsync(PutRequest(d.options, fileKey, translations));
    assert (before + made) + [put] == before + (made + [put]);
    var event := TranslatedEvent(command.educationId, None, command.toLanguage, fileKey);
    assert (before + made) + [put] + [RaiseEvent(event)] == before + (made + [put] + [RaiseEvent(event)]);
  }

  /** The translating stage makes the same calls, and ends the same way, whatever was called
      before it. */
  lemma TranslatingAfter(a: Addressing, d: Dependencies, dispatcher: Dispatcher, command: TranslateCommand, today: Date,
                         target: string, before: seq<Call>, made: seq<Call>, texts: seq<string>)
    ensures var run := Translating(a, d, dispatcher, command, today, target, made, texts);
      Translating(a, d, dispatcher, command, today, target, before + made, texts) == Run(before + run.calls, run.outcome)
  {
    var answers := Answers(d.translate, texts, target);
    var failed := FirstFailure(answers);
    if failed < |texts| {
      var attempted := TranslateCalls(texts, target, failed + 1);
      assert (before + made) + attempted == before + (made + attempted);
    } else {
      var attempted := TranslateCalls(texts, target, |texts|);
      assert (before + made) + attempted == before + (made + attempted);
      StoringAfter(a, d, dispatcher, command, today, target, before, made + attempted, Values(answers));
    }
  }

  /** Where a call sits in `HandleAsync`: download, translate, put, raise. */
  function Step(call: Call): nat {
    match call
    case SendAsync(_) => 0
    case TranslateTextAsync(_) => 1
    case PutObjectAsync(_) => 2
    case RaiseEvent(_) => 3
  }

  predicate StepsBelow(calls: seq<Call>, step: nat) {
    forall i :: 0 <= i < |calls| ==> Step(calls[i]) < step
  }

  /** The calls of the storing stage after `made`: the put of the merged translations under
      the key for the target code, then (when the put succeeds) the event. */
  lemma StoringCalls(a: Addressing, d: Dependencies, dispatcher: Dispatcher, command: TranslateCommand, today: Date,
                     target: string, made: seq<Call>, translations: seq<string>)
    ensures var run := Storing(a, d, dispatcher, command, today, target, made, translations);
      var fileKey := a.fileKey(today, command.educationId, target);
      var request := PutRequest(d.options, fileKey, translations);
      var event := TranslatedEvent(command.educationId, None, command.toLanguage, fileKey);
      var m := |made|;
      && |run.calls| >= m + 1 && run.calls[..m] == made && run.calls[m] == PutObjectAsync(request)
      && (d.s3(request).Fail? ==> |run.calls| == m + 1 && run.outcome == d.s3(request))
      && (d.s3(request).Pass? ==>
            |run.calls| == m + 2 && run.calls[m + 1] == RaiseEvent(event) && run.outcome == dispatcher(event))
  {
    var run := Storing(a, d, dispatcher, command, today, target, made, translations);
    var fileKey := a.fileKey(today, command.educationId, target);
    var put := PutObjectAsync(PutRequest(d.options, fileKey, translations));
    if d.s3(PutRequest(d.options, fileKey, translations)).Fail? {
      assert run.calls == made + [put];
    } else {
      var event := TranslatedEvent(command.educationId, None, command.toLanguage, fileKey);
      assert run.calls == made + [put, RaiseEvent(event)];
    }
  }

  /** A put in the storing stage after `made` is its first call; the event follows it exactly
      when it succeeds. */
  lemma StoredPut(a: Addressing, d: Dependencies, dispatcher: Dispatcher, command: TranslateCommand, today: Date,
                  target: string, made: seq<Call>, translations: seq<string>, i: nat)
    requires |made| <= i < |Storing(a, d, dispatcher, command, today, target, made, translations).calls|
    requires Storing(a, d, dispatcher, command, today, target, made, translations).calls[i].PutObjectAsync?
    ensures var run := Storing(a, d, dispatcher, command, today, target, made, translations);
      var fileKey := a.fileKey(today, command.educationId, target);
      var request := PutRequest(d.options, fileKey, translations);
      var event := TranslatedEvent(command.educationId, None, command.toLanguage, fileKey);
      && i == |made|
      && run.calls[i] == PutObjectAsync(request)
      && (d.s3(request).Fail? ==> |run.calls| == i + 1 && run.outcome == d.s3(request))
      && (d.s3(request).Pass? ==>
            |run.calls| == i + 2 && run.calls[i + 1] == RaiseEvent(event) && run.outcome == dispatcher(event))
  {
    StoringCalls(a, d, dispatcher, command, today, target, made, translations);
  }

  /** An event in the storing stage after `made` is its last call, right after a put that
      succeeded under the key for the target code. */
  lemma StoredEvent(a: Addressing, d: Dependencies, dispatcher: Dispatcher, command: TranslateCommand, today: Date,
                    target: string, made: seq<Call>, translations: seq<string>, i: nat)
    requires |made| <= i < |Storing(a, d, dispatcher, command, today, target, made, translations).calls|
    requires Storing(a, d, dispatcher, command, today, target, made, translations).calls[i].RaiseEvent?
    ensures var run := Storing(a, d, dispatcher, command, today, target, made, translations);
      var fileKey := a.fileKey(today, command.educationId, target);
      var request := PutRequest(d.options, fileKey, translations);
      var event := TranslatedEvent(command.educationId, None, command.toLanguage, fileKey);
      && i == |made| + 1 == |run.calls| - 1
      && run.calls[i - 1] == PutObjectAsync(request)
      && d.s3(request) == Pass
      && run.calls[i] == RaiseEvent(event) && run.outcome == dispatcher(event)
  {
    StoringCalls(a, d, dispatcher, command, today, target, made, translations);
  }

  /** The calls before the put: the download and some translations. */
  lemma TranslatedPrefix(uri: string, texts: seq<string>, target: string, count: nat)
    requires count <= |texts|
    ensures StepsBelow([SendAsync(uri)] + TranslateCalls(texts, target, count), 2)
  {
    var made := [SendAsync(uri)] + TranslateCalls(texts, target, count);
    forall i | 0 <= i < |made| ensures Step(made[i]) < 2 {
      if i >= 1 {
        assert made[i] == TranslateCalls(texts, target, count)[i - 1];
      }
    }
  }

  /** The translating stage after `made`: the translate calls of the attempted texts, then
      only calls of later steps. */
  lemma TranslatingCalls(a: Addressing, d: Dependencies, dispatcher: Dispatcher, command: TranslateCommand, today: Date,
                         target: string, made: seq<Call>, texts: seq<string>)
    ensures var calls := Translating(a, d, dispatcher, command, today, target, made, texts).calls;
      var n := Attempted(Answers(d.translate, texts, target));
      && |made| + n <= |calls|
      && calls[..|made| + n] == made + TranslateCalls(texts, target, n)
      && forall i :: |made| + n <= i < |calls| ==> 2 <= Step(calls[i])
  {
    var answers := Answers(d.translate, texts, target);
    if FirstFailure(answers) >= |texts| {
      var translated := made + TranslateCalls(texts, target, |texts|);
      StoringCalls(a, d, dispatcher, command, today, target, translated, Values(answers));
    }
  }

  /** Every attempted text but the last was translated, and fewer than all are attempted only
      because the last attempted one threw. */
  lemma AttemptedAnswers(translate: TranslateClient, texts: seq<string>, target: string)
    ensures var n := Attempted(Answers(translate, texts, target));
      && n <= |texts|
      && (forall j :: 0 <= j < n - 1 ==> translate(Request(texts[j], target)).Ok?)
      && (n < |texts| ==> 1 <= n && translate(Request(texts[n - 1], target)).Err?)
  {
    var answers := Answers(translate, texts, target);
    var n := Attempted(answers);
    forall j | 0 <= j < n - 1 ensures translate(Request(texts[j], target)).Ok? {
      assert answers[j].Ok?;
    }
    if n < |texts| {
      assert answers[n - 1].Err?;
    }
  }

  /** Every translate request goes from "sv" to the target code, with the text unchanged; the
      requests follow the texts' order. */
  lemma RequestsFromSwedish(texts: seq<string>, target: string, count: nat)
    requires count <= |texts|
    ensures forall j :: 0 <= j < count ==>
      TranslateCalls(texts, target, count)[j] == TranslateTextAsync(TranslateTextRequest("sv", target, texts[j]))
  {
  }

  /** A command to ChineseSimplified is refused before anything else: the handler throws
      `ArgumentOutOfRangeException` for `ToLanguage` and sends no request at all. Every other
      language gets past the guard, has a code in the table, and leads to at least the
      download. */
  lemma RefusesChineseFirst(a: Addressing, d: Dependencies, dispatcher: Dispatcher, command: TranslateCommand, today: Date)
    ensures var run := Handle(a, d, dispatcher, command, today);
      && (run.calls == [] <==> command.toLanguage == ChineseSimplified)
      && (command.toLanguage == ChineseSimplified ==>
            run.outcome == Fail(ArgumentOutOfRangeException("ToLanguage", "Chinese not supported")))
      && (command.toLanguage != ChineseSimplified ==>
            command.toLanguage in LanguageMappings && SourceLanguage in LanguageMappings)
  {
  }

  /** Past the guard, the education page at the command's id is fetched first and never again.
      A fetch or an extraction that throws ends the handler with its exception, before any
      translation. */
  lemma DownloadsFirst(a: Addressing, d: Dependencies, dispatcher: Dispatcher, command: TranslateCommand, today: Date)
    requires command.toLanguage != ChineseSimplified
    ensures var run := Handle(a, d, dispatcher, command, today);
      var download := d.http(a.educationUri(command.educationId));
      && |run.calls| >= 1 && run.calls[0] == SendAsync(a.educationUri(command.educationId))
      && (forall i :: 1 <= i < |run.calls| ==> 1 <= Step(run.calls[i]))
      && (download.Err? ==> |run.calls| == 1 && run.outcome == Fail(download.error))
      && (download.Ok? && d.extractTexts(download.value).Err? ==>
            |run.calls| == 1 && run.outcome == Fail(d.extractTexts(download.value).error))
  {
    var calls := Handle(a, d, dispatcher, command, today).calls;
    var made := [SendAsync(a.educationUri(command.educationId))];
    match d.http(a.educationUri(command.educationId))
    case Err(_) =>
    case Ok(content) =>
      match d.extractTexts(content)
      case Err(_) =>
      case Ok(texts) =>
        var target := LanguageMappings[command.toLanguage];
        var n := Attempted(Answers(d.translate, texts, target));
        TranslatingCalls(a, d, dispatcher, command, today, target, made, texts);
        forall i | 1 <= i < |calls| ensures 1 <= Step(calls[i]) {
          if i < 1 + n {
            assert calls[i] == calls[..1 + n][i] == TranslateCalls(texts, target, n)[i - 1];
          }
        }
        assert calls[0] == calls[..1 + n][0];
  }

  /** Once the page is fetched and its texts extracted, one translate request is sent per text,
      in text order, each to the code the table gives the command's language, and no other
      call translates. Every translated text but the last was translated, and the loop stops
      before the last text only because the last translated one threw. */
  lemma TranslatesTextsInOrder(a: Addressing, d: Dependencies, dispatcher: Dispatcher, command: TranslateCommand, today: Date,
                               content: string, texts: seq<string>)
    requires command.toLanguage != ChineseSimplified
    requires d.http(a.educationUri(command.educationId)) == Ok(content)
    requires d.extractTexts(content) == Ok(texts)
    ensures command.toLanguage in LanguageMappings
    ensures var calls := Handle(a, d, dispatcher, command, today).calls;
      var target := LanguageMappings[command.toLanguage];
      var n := Attempted(Answers(d.translate, texts, target));
      && 1 + n <= |calls|
      && calls[..1 + n] == [SendAsync(a.educationUri(command.educationId))] + TranslateCalls(texts, target, n)
      && (forall i :: 1 + n <= i < |calls| ==> !calls[i].TranslateTextAsync?)
      && (forall j :: 0 <= j < n - 1 ==> d.translate(Request(texts[j], target)).Ok?)
      && (n < |texts| ==> 1 <= n && d.translate(Request(texts[n - 1], target)).Err?)
  {
    var target := LanguageMappings[command.toLanguage];
    var made := [SendAsync(a.educationUri(command.educationId))];
    assert Handle(a, d, dispatcher, command, today) == Translating(a, d, dispatcher, command, today, target, made, texts);
    TranslatingCalls(a, d, dispatcher, command, today, target, made, texts);
    AttemptedAnswers(d.translate, texts, target);
  }

  /** A translation that throws stops the handler: no put and no event follow, and the handler
      ends with the exception of the first text that failed. */
  lemma StopsAtFailedTranslation(a: Addressing, d: Dependencies, dispatcher: Dispatcher, command: TranslateCommand, today: Date,
                                 content: string, texts: seq<string>, j: nat)
    requires command.toLanguage in LanguageMappings
    requires d.http(a.educationUri(command.educationId)) == Ok(content)
    requires d.extractTexts(content) == Ok(texts)
    requires j < |texts| && d.translate(Request(texts[j], LanguageMappings[command.toLanguage])).Err?
    ensures var run := Handle(a, d, dispatcher, command, today);
      var target := LanguageMappings[command.toLanguage];
      var n := Attempted(Answers(d.translate, texts, target));
      && 1 <= n <= j + 1
      && (forall i :: 0 <= i < |run.calls| ==> Step(run.calls[i]) <= 1)
      && run.outcome.Fail?
      && d.translate(Request(texts[n - 1], target)) == Err(run.outcome.error)
  {
    var target := LanguageMappings[command.toLanguage];
    var answers := Answers(d.translate, texts, target);
    assert answers[j].Err?;
    var failed := FirstFailure(answers);
    TranslatedPrefix(a.educationUri(command.educationId), texts, target, failed + 1);
  }

  /** Nothing is stored before every text is translated: a put or an event is only ever made
      when the fetch, the extraction and every translation succeeded, and the run is then the
      storing stage after exactly those calls, with the translations in text order. */
  lemma StoresOnlyAfterTranslating(a: Addressing, d: Dependencies, dispatcher: Dispatcher, command: TranslateCommand, today: Date)
    ensures var run := Handle(a, d, dispatcher, command, today);
      (exists i :: 0 <= i < |run.calls| && 2 <= Step(run.calls[i])) ==>
        && command.toLanguage in LanguageMappings
        && d.http(a.educationUri(command.educationId)).Ok?
        && var content := d.http(a.educationUri(command.educationId)).value;
           && d.extractTexts(content).Ok?
           && var texts := d.extractTexts(content).value;
              var target := LanguageMappings[command.toLanguage];
              var answers := Answers(d.translate, texts, target);
              && FirstFailure(answers) == |texts|
              && run == Storing(a, d, dispatcher, command, today, target,
                                [SendAsync(a.educationUri(command.educationId))] + TranslateCalls(texts, target, |texts|),
                                Values(answers))
  {
    if command.toLanguage == ChineseSimplified {
      return;
    }
    var calls := Handle(a, d, dispatcher, command, today).calls;
    var target := LanguageMappings[command.toLanguage];
    match d.http(a.educationUri(command.educationId))
    case Err(_) =>
      assert calls == [SendAsync(a.educationUri(command.educationId))];
    case Ok(content) =>
      match d.extractTexts(content)
      case Err(_) =>
        assert calls == [SendAsync(a.educationUri(command.educationId))];
      case Ok(texts) =>
        var answers := Answers(d.translate, texts, target);
        var failed := FirstFailure(answers);
        if failed < |texts| {
          TranslatedPrefix(a.educationUri(command.educationId), texts, target, failed + 1);
        }
  }

  /** The converse: when the command's language has a code in the table (every language but
      ChineseSimplified, by `MappedLanguages`) and the download, the extraction and every
      translation succeed, the run is the storing stage after exactly those calls, with one
      translation per text in text order (none when nothing was extracted). The put of the
      merged translations under the key for that code follows, and when it succeeds, the event
      is raised as the last call and the handler ends as raising it does. */
  lemma StoresWhenAllSucceed(a: Addressing, d: Dependencies, dispatcher: Dispatcher, command: TranslateCommand, today: Date,
                             content: string, texts: seq<string>)
    requires command.toLanguage in LanguageMappings
    requires d.http(a.educationUri(command.educationId)) == Ok(content)
    requires d.extractTexts(content) == Ok(texts)
    requires forall j :: 0 <= j < |texts| ==> d.translate(Request(texts[j], LanguageMappings[command.toLanguage])).Ok?
    ensures var target := LanguageMappings[command.toLanguage];
      var answers := Answers(d.translate, texts, target);
      && FirstFailure(answers) == |texts|
      && Handle(a, d, dispatcher, command, today)
           == Storing(a, d, dispatcher, command, today, target,
                      [SendAsync(a.educationUri(command.educationId))] + TranslateCalls(texts, target, |texts|),
                      Values(answers))
    ensures var run := Handle(a, d, dispatcher, command, today);
      var target := LanguageMappings[command.toLanguage];
      var translations := Values(Answers(d.translate, texts, target));
      var fileKey := a.fileKey(today, command.educationId, target);
      var request := PutRequest(d.options, fileKey, translations);
      var event := TranslatedEvent(command.educationId, None, command.toLanguage, fileKey);
      var m := 1 + |texts|;
      && |translations| == |texts|
      && (forall j :: 0 <= j < |texts| ==> d.translate(Request(texts[j], target)) == Ok(translations[j]))
      && request.contentBody == Merged(translations)
      && |run.calls| >= m + 1 && run.calls[m] == PutObjectAsync(request)
      && (d.s3(request).Pass? ==>
            |run.calls| == m + 2 && run.calls[m + 1] == RaiseEvent(event) && run.outcome == dispatcher(event))
  {
    var target := LanguageMappings[command.toLanguage];
    var answers := Answers(d.translate, texts, target);
    forall j | 0 <= j < |texts| ensures answers[j].Ok? {
      assert answers[j] == d.translate(Request(texts[j], target));
    }
    assert FirstFailure(answers) == |texts|;
    var made := [SendAsync(a.educationUri(command.educationId))] + TranslateCalls(texts, target, |texts|);
    StoringCalls(a, d, dispatcher, command, today, target, made, Values(answers));
  }

  /** A run that made a put or raised the event is the storing stage, after the calls `made`,
      which are all of earlier steps, for the code the table gives the command's language. */
  lemma StoredRun(a: Addressing, d: Dependencies, dispatcher: Dispatcher, command: TranslateCommand, today: Date, i: nat)
    returns (made: seq<Call>, translations: seq<string>)
    requires i < |Handle(a, d, dispatcher, command, today).calls|
    requires 2 <= Step(Handle(a, d, dispatcher, command, today).calls[i])
    ensures command.toLanguage in LanguageMappings
    ensures |made| <= i
    ensures Handle(a, d, dispatcher, command, today)
         == Storing(a, d, dispatcher, command, today, LanguageMappings[command.toLanguage], made, translations)
  {
    StoresOnlyAfterTranslating(a, d, dispatcher, command, today);
    var content := d.http(a.educationUri(command.educationId)).value;
    var texts := d.extractTexts(content).value;
    var target := LanguageMappings[command.toLanguage];
    made := [SendAsync(a.educationUri(command.educationId))] + TranslateCalls(texts, target, |texts|);
    translations := Values(Answers(d.translate, texts, target));
    TranslatedPrefix(a.educationUri(command.educationId), texts, target, |texts|);
  }

  /** What is put is one object: under the key built from today's date, the command's id and
      the table's code for the command's language, into the configured bucket, as plain text,
      with the merge of the translations of all extracted texts, in text order, as its body. */
  lemma PutsEveryTranslation(a: Addressing, d: Dependencies, dispatcher: Dispatcher, command: TranslateCommand, today: Date, i: nat)
    requires i < |Handle(a, d, dispatcher, command, today).calls|
    requires Handle(a, d, dispatcher, command, today).calls[i].PutObjectAsync?
    ensures command.toLanguage in LanguageMappings && d.http(a.educationUri(command.educationId)).Ok?
    ensures var content := d.http(a.educationUri(command.educationId)).value;
      && d.extractTexts(content).Ok?
      && var texts := d.extractTexts(content).value;
         var target := LanguageMappings[command.toLanguage];
         var answers := Answers(d.translate, texts, target);
         var request := Handle(a, d, dispatcher, command, today).calls[i].putRequest;
         && (forall j :: 0 <= j < |texts| ==> answers[j].Ok?)
         && request.key == a.fileKey(today, command.educationId, target)
         && request.bucketName == d.options.resultBucket
         && request.contentType == "text/plain"
         && request.contentBody == Merged(Values(answers))
  {
    StoresOnlyAfterTranslating(a, d, dispatcher, command, today);
    var content := d.http(a.educationUri(command.educationId)).value;
    var texts := d.extractTexts(content).value;
    var target := LanguageMappings[command.toLanguage];
    var made := [SendAsync(a.educationUri(command.educationId))] + TranslateCalls(texts, target, |texts|);
    TranslatedPrefix(a.educationUri(command.educationId), texts, target, |texts|);
    StoredPut(a, d, dispatcher, command, today, target, made, Values(Answers(d.translate, texts, target)), i);
  }

  /** A put that throws ends the handler with that exception and no event; a put that succeeds
      is followed by exactly one event, the last call, carrying the command's id and language
      and the key just put, and the handler ends as raising it does. */
  lemma RaisesOnlyAfterPut(a: Addressing, d: Dependencies, dispatcher: Dispatcher, command: TranslateCommand, today: Date, i: nat)
    requires i < |Handle(a, d, dispatcher, command, today).calls|
    requires Handle(a, d, dispatcher, command, today).calls[i].PutObjectAsync?
    ensures var run := Handle(a, d, dispatcher, command, today);
      var request := run.calls[i].putRequest;
      var event := TranslatedEvent(command.educationId, None, command.toLanguage, request.key);
      && (d.s3(request).Fail? ==> |run.calls| == i + 1 && run.outcome == d.s3(request))
      && (d.s3(request).Pass? ==>
            |run.calls| == i + 2 && run.calls[i + 1] == RaiseEvent(event) && run.outcome == dispatcher(event))
  {
    var made, translations := StoredRun(a, d, dispatcher, command, today, i);
    StoredPut(a, d, dispatcher, command, today, LanguageMappings[command.toLanguage], made, translations, i);
  }

  /** An event is raised only as the last call, right after a put that succeeded, and it
      carries the command's id and language and the key that was put. */
  lemma EventFollowsPut(a: Addressing, d: Dependencies, dispatcher: Dispatcher, command: TranslateCommand, today: Date, i: nat)
    requires i < |Handle(a, d, dispatcher, command, today).calls|
    requires Handle(a, d, dispatcher, command, today).calls[i].RaiseEvent?
    ensures var run := Handle(a, d, dispatcher, command, today);
      && 1 <= i == |run.calls| - 1
      && run.calls[i - 1].PutObjectAsync?
      && d.s3(run.calls[i - 1].putRequest) == Pass
      && run.calls[i].event == TranslatedEvent(command.educationId, None, command.toLanguage, run.calls[i - 1].putRequest.key)
      && run.outcome == dispatcher(run.calls[i].event)
  {
    var made, translations := StoredRun(a, d, dispatcher, command, today, i);
    StoredEvent(a, d, dispatcher, command, today, LanguageMappings[command.toLanguage], made, translations, i);
  }

  /** The handler completes without an exception only by raising the event, as its last call,
      with the dispatcher accepting it. */
  lemma SucceedsOnlyByRaising(a: Addressing, d: Dependencies, dispatcher: Dispatcher, command: TranslateCommand, today: Date)
    ensures var run := Handle(a, d, dispatcher, command, today);
      run.outcome.Pass? ==>
        && |run.calls| >= 1 && run.calls[|run.calls| - 1].RaiseEvent?
        && dispatcher(run.calls[|run.calls| - 1].event) == Pass
  {
    if command.toLanguage == ChineseSimplified {
      return;
    }
    var target := LanguageMappings[command.toLanguage];
    match d.http(a.educationUri(command.educationId))
    case Err(_) =>
    case Ok(content) =>
      match d.extractTexts(content)
      case Err(_) =>
      case Ok(texts) =>
        var answers := Answers(d.translate, texts, target);
        if FirstFailure(answers) >= |texts| {
          var made := [SendAsync(a.educationUri(command.educationId))] + TranslateCalls(texts, target, |texts|);
          StoringCalls(a, d, dispatcher, command, today, target, made, Values(answers));
        }
  }

  /** The constructor's null checks, in the order it makes them; `options` is null when either
      the options wrapper or its `Value` is. */
  function ConstructorGuard(http: Option<HttpGet>, translate: Option<TranslateClient>, s3: Option<S3Client>,
                            options: Option<Option<TranslateOptions>>, logger: Option<Logger>): (r: Outcome<Exception>)
    ensures r.Pass? <==> http.Some? && translate.Some? && s3.Some? && options.Some? && options.value.Some? && logger.Some?
    ensures http.None? ==> r == Fail(ArgumentNullException("http"))
    ensures http.Some? && translate.None? ==> r == Fail(ArgumentNullException("translate"))
    ensures http.Some? && translate.Some? && s3.None? ==> r == Fail(ArgumentNullException("s3"))
    ensures http.Some? && translate.Some? && s3.Some? && (options.None? || options.value.None?) ==>
      r == Fail(ArgumentNullException("options"))
    ensures http.Some? && translate.Some? && s3.Some? && options.Some? && options.value.Some? && logger.None? ==>
      r == Fail(ArgumentNullException("logger"))
  {
    var arguments := [("http", http.Some?), ("translate", translate.Some?), ("s3", s3.Some?),
                      ("options", options.Some? && options.value.Some?), ("logger", logger.Some?)];
    assert arguments[0].1 == http.Some? && arguments[1].1 == translate.Some? && arguments[2].1 == s3.Some?;
    assert arguments[3].1 == (options.Some? && options.value.Some?) && arguments[4].1 == logger.Some?;
    NullGuards(arguments)
  }

  /** `SingleTranslateCommandHandler`, once its constructor's checks have passed. */
  class SingleTranslateCommandHandler {
    const http: HttpGet
    const extractTexts: TextsExtractor
    const translate: TranslateClient
    const s3: S3Client
    const options: TranslateOptions

    /** The calls made on the HTTP client, the Amazon clients and the dispatcher so far,
        oldest first. */
    var calls: seq<Call>

    constructor(http: HttpGet, extractTexts: TextsExtractor, translate: TranslateClient, s3: S3Client, options: TranslateOptions)
      ensures this.http == http && this.extractTexts == extractTexts && this.translate == translate
      ensures this.s3 == s3 && this.options == options
      ensures calls == []
    {
      this.http := http;
      this.extractTexts := extractTexts;
      this.translate := translate;
      this.s3 := s3;
      this.options := options;
      calls := [];
    }

    function Depending(): Dependencies {
      Dependencies(http, extractTexts, translate, s3, options)
    }

    /** `GetContent`: one GET of the address; a failed status or a failed send throws. */
    method GetContent(uriToTranslate: string) returns (content: Result<string, Exception>)
      modifies this
      ensures calls == old(calls) + [SendAsync(uriToTranslate)]
      ensures content == http(uriToTranslate)
    {
      calls := calls + [SendAsync(uriToTranslate)];
      content := http(uriToTranslate);
    }

    /** `TranslateContent`: one request, from the code of Swedish to the code of the target
        language, with the text unchanged. A language missing from the table throws
        `KeyNotFoundException` while the request is built, before any call. */
    method TranslateContent(contentToTranslate: string, toLanguage: Language) returns (r: Result<string, Exception>)
      modifies this
      ensures toLanguage !in LanguageMappings ==> calls == old(calls) && r == Err(KeyNotFoundException)
      ensures toLanguage in LanguageMappings ==>
        var request := TranslateTextRequest("sv", LanguageMappings[toLanguage], contentToTranslate);
        calls == old(calls) + [TranslateTextAsync(request)] && r == translate(request)
    {
      if toLanguage !in LanguageMappings {
        return Err(KeyNotFoundException);
      }
      var request := TranslateTextRequest(LanguageMappings[SourceLanguage], LanguageMappings[toLanguage], contentToTranslate);
      calls := calls + [TranslateTextAsync(request)];
      r := translate(request);
    }

    /** The `foreach` over the texts: one translate request per text, in order, until one
        throws; the translations collected, or the exception. It runs after the guard, so the
        language has a code. */
    method TranslateTexts(contentToTranslate: seq<string>, toLanguage: Language) returns (r: Result<seq<string>, Exception>)
      requires toLanguage != ChineseSimplified
      modifies this
      ensures toLanguage in LanguageMappings
      ensures var target := LanguageMappings[toLanguage];
        var answers := Answers(translate, contentToTranslate, target);
        var failed := FirstFailure(answers);
        && calls == old(calls) + TranslateCalls(contentToTranslate, target, Attempted(answers))
        && r == if failed < |contentToTranslate| then Err(answers[failed].error) else Ok(Values(answers))
    {
      var target := LanguageMappings[toLanguage];
      ghost var answers := Answers(translate, contentToTranslate, target);
      var translations: seq<string> := [];
      var i := 0;
      while i < |contentToTranslate|
        invariant i <= |contentToTranslate| && i <= FirstFailure(answers)
        invariant |translations| == i
        invariant forall j :: 0 <= j < i ==> answers[j] == Ok(translations[j])
        invariant calls == old(calls) + TranslateCalls(contentToTranslate, target, i)
      {
        var translatedText := TranslateContent(contentToTranslate[i], toLanguage);
        assert TranslateCalls(contentToTranslate, target, i + 1) ==
          TranslateCalls(contentToTranslate, target, i) + [TranslateTextAsync(Request(contentToTranslate[i], target))];
        if translatedText.Err? {
          assert answers[i] == translatedText && i == FirstFailure(answers);
          return Err(translatedText.error);
        }
        translations := translations + [translatedText.value];
        i := i + 1;
      }
      assert translations == Values(answers);
      r := Ok(translations);
    }

    /** `StoreTranslations`: one put, under the key, into the configured bucket, as plain text,
        with the merged translations as its body. */
    method StoreTranslations(fileKey: string, translatedContent: seq<string>) returns (outcome: Outcome<Exception>)
      modifies this
      ensures calls == old(calls) + [PutObjectAsync(PutRequest(options, fileKey, translatedContent))]
      ensures outcome == s3(PutRequest(options, fileKey, translatedContent))
    {
      var body := MergeContent(translatedContent);
      var request := PutObjectRequest(fileKey, options.resultBucket, "text/plain", body);
      calls := calls + [PutObjectAsync(request)];
      outcome := s3(request);
    }

    /** The end of `HandleAsync`, once every text is translated: the key for today, the put,
        the event. */
    method StoreAndRaise(dispatcher: Dispatcher, command: TranslateCommand, today: Date, translations: seq<string>)
      returns (outcome: Outcome<Exception>)
      requires command.toLanguage != ChineseSimplified
      modifies this
      ensures command.toLanguage in LanguageMappings
      ensures var run := Storing(Studentum, Depending(), dispatcher, command, today,
                                 LanguageMappings[command.toLanguage], old(calls), translations);
        calls == run.calls && outcome == run.outcome
    {
      var fileKey := FileKey(today, command.educationId, LanguageMappings[command.toLanguage]);
      outcome := StoreTranslations(fileKey, translations);
      if outcome.Fail? {
        return;
      }
      var event := TranslatedEvent(command.educationId, None, command.toLanguage, fileKey);
      calls := calls + [RaiseEvent(event)];
      outcome := dispatcher(event);
    }

    /** The `foreach` and what follows it: translate the texts, then, when every one was
        translated, store them and raise the event. */
    method TranslateAndStore(dispatcher: Dispatcher, command: TranslateCommand, today: Date, texts: seq<string>)
      returns (outcome: Outcome<Exception>)
      requires command.toLanguage != ChineseSimplified
      modifies this
      ensures command.toLanguage in LanguageMappings
      ensures var run := Translating(Studentum, Depending(), dispatcher, command, today,
                                     LanguageMappings[command.toLanguage], old(calls), texts);
        calls == run.calls && outcome == run.outcome
    {
      var translations := TranslateTexts(texts, command.toLanguage);
      if translations.Err? {
        return Fail(translations.error);
      }
      outcome := StoreAndRaise(dispatcher, command, today, translations.value);
    }

    method HandleAsync(dispatcher: Dispatcher, command: TranslateCommand, today: Date) returns (outcome: Outcome<Exception>)
      modifies this
      ensures calls == old(calls) + Handle(Studentum, Depending(), dispatcher, command, today).calls
      ensures outcome == Handle(Studentum, Depending(), dispatcher, command, today).outcome
    {
      if command.toLanguage == ChineseSimplified {
        return Fail(ChineseNotSupported);
      }
      var uriToTranslate := EducationUri(command.educationId);
      var content := GetContent(uriToTranslate);
      if content.Err? {
        return Fail(content.error);
      }
      var contentToTranslate := extractTexts(content.value);
      if contentToTranslate.Err? {
        return Fail(contentToTranslate.error);
      }
      ghost var made := [SendAsync(uriToTranslate)];
      outcome := TranslateAndStore(dispatcher, command, today, contentToTranslate.value);
      TranslatingAfter(Studentum, Depending(), dispatcher, command, today, LanguageMappings[command.toLanguage],
                       old(calls), made, contentToTranslate.value);
    }
  }
}
