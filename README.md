# Translator queue processor: the translate-command workflow

The queue processor of the Translator exercise receives a command naming an education and a
target language. It fetches the education's page, extracts its text fragments and translates
each fragment from Swedish with Amazon Translate. It stores the merged translations in S3 under
a dated key and raises an event that carries the key. This project models the three handlers
of that workflow and the two Amazon adapters behind them, and proves what each handler promises
about the calls it makes and how it ends.

- `Outcomes` (outcomes.dfy): what a C# call returns or throws, and the constructors'
  `x ?? throw new ArgumentNullException(nameof(x))` chains.
- `Formatting` (formatting.dfy): the `{n:00}` and `{n:000000000000}` custom numeric formats,
  and a parser that reads them back.
- `Locations` (locations.dfy): the education page address and the storage key
  `translations/{year}/{MM}/{dd}/{id}/{code}`, with round-trip and injectivity lemmas.
  `Addressing` bundles the two. The handlers' lemmas hold for any addressing; the methods use
  `Studentum`, the real one.
- `Messages` and `EducationMessages` (messages.dfy): the two commands, the two events, and
  the two `Language` enums (ten and eight languages).
- `AmazonTranslate` (translator.dfy): the language-code table and the request built for one text.
- `AmazonS3Persistence` (persister.dfy): the merge of the translations into one plain-text
  body, and the single put request.
- `TranslationLoop` (translation_loop.dfy): the `foreach` every handler runs. It stops at the
  first translation that throws.
- `EducationTranslation` (education_handler.dfy): `Handlers/ImprovedTranslateCommandHandler`
  for `TranslateEducationCommand`.
- `CommandTranslation` (improved_handler.dfy): the root `ImprovedTranslateCommandHandler`
  for `TranslateCommand`, with its ChineseSimplified guard.
- `SingleTranslation` (single_handler.dfy): `SingleTranslateCommandHandler`, which calls
  HTTP, Amazon Translate and S3 itself.

Every collaborator is a function value that answers or throws (`Result` / `Outcome`). Each
handler is a class whose `calls` field records every call made on a collaborator or on the
dispatcher. Its `HandleAsync` method is proved to make exactly the calls, and end exactly
the way, that the pure function `Handle` describes. `Handle` is written as stages
(`Extracting`, `Translating`, `Storing`); each stage appends its calls to those made before it.
The lemmas about `Handle` state what the handler promises:

- the guard comes first;
- the download comes first, with the right address;
- one translation per fragment, in order;
- nothing is stored after a failure;
- when every step before it succeeds (also with nothing extracted), the store follows;
- the stored content and key are the right ones;
- the event follows a successful store, and carries the command's fields and the stored key.

## Model

| member | source | states |
|---|---|---|
| Outcomes.NullGuards | exercises/Translator/src/QueueProcessor/Handlers/ImprovedTranslateCommandHandler.cs:19-22 | the chain passes exactly when every argument is non-null; otherwise it throws ArgumentNullException naming the first null argument in check order |
| Formatting.Digits | exercises/Translator/src/QueueProcessor/ImprovedTranslateCommandHandler.cs:62 | decimal rendering: at least one digit, all digits, no leading zero unless the number is 0 |
| Formatting.ZeroPad | exercises/Translator/src/QueueProcessor/ImprovedTranslateCommandHandler.cs:62 | zero padding to a minimum width: all digits, length max(width, digit count) |
| Formatting.FormatInt | exercises/Translator/src/QueueProcessor/ImprovedTranslateCommandHandler.cs:62 | the custom format of k zeros: at least k digits, with a leading '-' for a negative number |
| Formatting.ParseInt | exercises/Translator/src/QueueProcessor/ImprovedTranslateCommandHandler.cs:62 | reads a number exactly when the string is digits, optionally after '-' |
| Formatting.FormatIntRoundTrip | exercises/Translator/src/QueueProcessor/ImprovedTranslateCommandHandler.cs:62 | parsing a formatted number gives it back, whatever the width |
| Formatting.FormatIntInjective | exercises/Translator/src/QueueProcessor/ImprovedTranslateCommandHandler.cs:62 | two numbers are rendered alike under the same format if and only if they are equal |
| Locations.EducationUri | exercises/Translator/src/QueueProcessor/ImprovedTranslateCommandHandler.cs:32 | the address starts with https://www.studentum.se/education/ and the id is read back from the rest |
| Locations.FileKey | exercises/Translator/src/QueueProcessor/Handlers/ImprovedTranslateCommandHandler.cs:51-57 | the key is the pieces translations, year, month and day in format 00, the id in format 000000000000 and the language code, joined by '/'; a code without '/' splits back into exactly those pieces and is parsed back into the date, id and code |
| Locations.KeyPiecesRoundTrip | exercises/Translator/src/QueueProcessor/ImprovedTranslateCommandHandler.cs:62 | the pieces of a key, joined and split again, come back unchanged and each number is read back from its piece |
| Locations.FileKeyInjective | exercises/Translator/src/QueueProcessor/Handlers/ImprovedTranslateCommandHandler.cs:51-56 | the same date, id and code give the same key, and any difference gives a different key |
| Locations.ExampleNumbers | exercises/Translator/src/QueueProcessor/Handlers/SingleTranslateCommandHandler.cs:59 | year 2023 renders as 2023; months and days below ten get a leading zero |
| Locations.ExampleId | exercises/Translator/src/QueueProcessor/Handlers/SingleTranslateCommandHandler.cs:59 | id 294571 renders as twelve digits, 000000294571 |
| Locations.FileKeyExample | exercises/Translator/src/QueueProcessor/Handlers/SingleTranslateCommandHandler.cs:59 | the key of education 294571 in English on 5 April 2023 has pieces translations/2023/04/05/000000294571/en |
| AmazonTranslate.MappedLanguages | exercises/Translator/src/QueueProcessor/Services/AmazonTranslateTranslator.cs:40-51 | for every declared `Language`, it has a code exactly when it is not ChineseSimplified |
| AmazonTranslate.GetLanguageCode | exercises/Translator/src/QueueProcessor/Services/AmazonTranslateTranslator.cs:38 | a mapped language's code is two lower-case letters; only mapped languages may be asked |
| AmazonTranslate.LanguageCodesDistinct | exercises/Translator/src/QueueProcessor/Services/AmazonTranslateTranslator.cs:42-50 | distinct languages have distinct codes, in both directions |
| AmazonTranslate.TranslateRequest | exercises/Translator/src/QueueProcessor/Services/AmazonTranslateTranslator.cs:26-31 | the request is built exactly for a mapped language: source code "sv", target the language's code, text unchanged; otherwise KeyNotFoundException |
| AmazonTranslate.TranslateText | exercises/Translator/src/QueueProcessor/Services/AmazonTranslateTranslator.cs:22-36 | ChineseSimplified throws KeyNotFoundException before the client is asked; any other language returns the client's answer to the request from "sv" to its code |
| AmazonTranslate.ConstructorGuard | exercises/Translator/src/QueueProcessor/Services/AmazonTranslateTranslator.cs:16-20 | passes exactly when translate and logger are non-null; otherwise it names the first null one |
| AmazonS3Persistence.Merged | exercises/Translator/src/QueueProcessor/Services/AmazonS3TranslationPersister.cs:41-52 | the merged body is empty exactly when there is nothing to merge, and otherwise opens with the separator line; its content is pinned by MergedSingle, MergedAppend and MergedContainsEach |
| AmazonS3Persistence.MergeContent | exercises/Translator/src/QueueProcessor/Services/AmazonS3TranslationPersister.cs:41-52 | the string-builder loop produces the merged body: per translation, in order, the separator line and then the text on its own line |
| AmazonS3Persistence.MergedEmpty | exercises/Translator/src/QueueProcessor/Services/AmazonS3TranslationPersister.cs:43-51 | merging no translations gives the empty string |
| AmazonS3Persistence.MergedSingle | exercises/Translator/src/QueueProcessor/Services/AmazonS3TranslationPersister.cs:45-49 | one translation gives 16 dashes, a newline, the text and a newline |
| AmazonS3Persistence.MergedAppend | exercises/Translator/src/QueueProcessor/Services/AmazonS3TranslationPersister.cs:45-49 | the merge distributes over concatenation, so order is kept |
| AmazonS3Persistence.MergedContainsEach | exercises/Translator/src/QueueProcessor/Services/AmazonS3TranslationPersister.cs:35 | every translation occurs in the body, right after its separator line and after the entries of all earlier translations |
| AmazonS3Persistence.MergedContainsAll | exercises/Translator/src/QueueProcessor/Services/AmazonS3TranslationPersister.cs:35 | every translation occurs in the body at its place |
| AmazonS3Persistence.ConstructorGuard | exercises/Translator/src/QueueProcessor/Services/AmazonS3TranslationPersister.cs:19-24 | passes exactly when s3, options and its Value, and logger are non-null; otherwise it names the first null one |
| AmazonS3Persistence.AmazonS3TranslationPersister.constructor | exercises/Translator/src/QueueProcessor/Services/AmazonS3TranslationPersister.cs:19-24 | keeps the client and options; no put sent yet |
| AmazonS3Persistence.AmazonS3TranslationPersister.PersistTranslations | exercises/Translator/src/QueueProcessor/Services/AmazonS3TranslationPersister.cs:26-39 | exactly one put is sent: the given key, the configured bucket, text/plain, the merged translations; its outcome is S3's |
| TranslationLoop.FirstFailure | exercises/Translator/src/QueueProcessor/ImprovedTranslateCommandHandler.cs:40-44 | every fragment before the position was translated, and the fragment at it (if any) threw |
| TranslationLoop.Values | exercises/Translator/src/QueueProcessor/ImprovedTranslateCommandHandler.cs:38-44 | the collected list has one entry per fragment, and entry j is fragment j's translation |
| TranslationLoop.Attempted | exercises/Translator/src/QueueProcessor/ImprovedTranslateCommandHandler.cs:40-44 | every attempted fragment but the last succeeded; fewer than all are attempted only because the last one threw |
| EducationTranslation.Handle | exercises/Translator/src/QueueProcessor/Handlers/ImprovedTranslateCommandHandler.cs:25-49 | the run always opens with the download of the command's profile; the lemmas below state the rest of the order and the outcome, in both directions: `StoresOnlyAfterTranslating` (storing needs every earlier step to succeed) and `StoresWhenAllSucceed` (every earlier step succeeding leads to storing and the event) |
| EducationTranslation.StoringAfter | exercises/Translator/src/QueueProcessor/Handlers/ImprovedTranslateCommandHandler.cs:39-48 | the storing stage makes the same calls and ends the same way whatever was called before |
| EducationTranslation.TranslatingAfter | exercises/Translator/src/QueueProcessor/Handlers/ImprovedTranslateCommandHandler.cs:31-48 | the translating stage makes the same calls and ends the same way whatever was called before |
| EducationTranslation.StoringCalls | exercises/Translator/src/QueueProcessor/Handlers/ImprovedTranslateCommandHandler.cs:39-48 | key lookup, then the persist of the translations under the key, then the event with the command's id and language and that key; a throwing step ends the run with its exception |
| EducationTranslation.StoredPersist | exercises/Translator/src/QueueProcessor/Handlers/ImprovedTranslateCommandHandler.cs:39-48 | a persist comes right after a successful code lookup; the event follows it exactly when it succeeds |
| EducationTranslation.StoredEvent | exercises/Translator/src/QueueProcessor/Handlers/ImprovedTranslateCommandHandler.cs:41-48 | an event is the last call, right after a successful persist under the same key |
| EducationTranslation.TranslatedPrefix | exercises/Translator/src/QueueProcessor/Handlers/ImprovedTranslateCommandHandler.cs:27-37 | the download, the extraction and the translations all come before the storing steps |
| EducationTranslation.TranslatingCalls | exercises/Translator/src/QueueProcessor/Handlers/ImprovedTranslateCommandHandler.cs:33-48 | the translating stage makes the translate calls of the attempted fragments and then only storing calls |
| EducationTranslation.AttemptedAnswers | exercises/Translator/src/QueueProcessor/Handlers/ImprovedTranslateCommandHandler.cs:33-37 | every attempted fragment but the last was translated; the loop stops early only because the last attempted one threw |
| EducationTranslation.ExtractingCalls | exercises/Translator/src/QueueProcessor/Handlers/ImprovedTranslateCommandHandler.cs:29-48 | the extractor receives the downloaded content; a throwing extraction ends the run |
| EducationTranslation.DownloadsThenExtracts | exercises/Translator/src/QueueProcessor/Handlers/ImprovedTranslateCommandHandler.cs:27-29 | the profile is fetched first, once, with the command's id, and the extractor receives exactly what was fetched; a throwing step ends the run |
| EducationTranslation.TranslatesFragmentsInOrder | exercises/Translator/src/QueueProcessor/Handlers/ImprovedTranslateCommandHandler.cs:33-37 | one translate call per fragment, in order, with the command's language, and no translate call elsewhere |
| EducationTranslation.StopsAtFailedTranslation | exercises/Translator/src/QueueProcessor/Handlers/ImprovedTranslateCommandHandler.cs:33-48 | a failed translation means no key lookup, no persist and no event; the run ends with the first failing fragment's exception |
| EducationTranslation.StoresOnlyAfterTranslating | exercises/Translator/src/QueueProcessor/Handlers/ImprovedTranslateCommandHandler.cs:31-48 | storing happens only when download, extraction and every translation succeeded, and then it stores the translations in fragment order |
| EducationTranslation.StoresWhenAllSucceed | exercises/Translator/src/QueueProcessor/Handlers/ImprovedTranslateCommandHandler.cs:31-48 | when the download, the extraction and every translation succeed (also with no fragments), the run goes on to storing with one translation per fragment in order; the code lookup follows, then the persist under the key for that code, and when the persist succeeds the event with the id, language and key is the last call and the outcome is the dispatcher's |
| EducationTranslation.StoredCalls | exercises/Translator/src/QueueProcessor/Handlers/ImprovedTranslateCommandHandler.cs:31-41 | a run that reached storing is the storing stage after exactly the download, the extraction and all the translate calls |
| EducationTranslation.StoredRun | exercises/Translator/src/QueueProcessor/Handlers/ImprovedTranslateCommandHandler.cs:39-48 | a run that reached storing is the storing stage after some earlier calls |
| EducationTranslation.PersistsEveryTranslation | exercises/Translator/src/QueueProcessor/Handlers/ImprovedTranslateCommandHandler.cs:31-41 | the persisted list has one entry per fragment, entry j is fragment j's translation, and the key is the one for today, the id and the translator's code |
| EducationTranslation.RaisesOnlyAfterPersist | exercises/Translator/src/QueueProcessor/Handlers/ImprovedTranslateCommandHandler.cs:41-48 | a failed persist means no event; a successful one is followed by exactly one event with the command's id and language and the persisted key |
| EducationTranslation.EventFollowsPersist | exercises/Translator/src/QueueProcessor/Handlers/ImprovedTranslateCommandHandler.cs:39-48 | an event is only the last call, right after a successful persist, and carries that persist's key |
| EducationTranslation.SucceedsOnlyByRaising | exercises/Translator/src/QueueProcessor/Handlers/ImprovedTranslateCommandHandler.cs:25-49 | the handler completes only when the last call raised the event and the dispatcher accepted it |
| EducationTranslation.ConstructorGuard | exercises/Translator/src/QueueProcessor/Handlers/ImprovedTranslateCommandHandler.cs:17-23 | passes exactly when all four collaborators are non-null; otherwise it names the first null one |
| EducationTranslation.ImprovedTranslateCommandHandler.constructor | exercises/Translator/src/QueueProcessor/Handlers/ImprovedTranslateCommandHandler.cs:17-23 | keeps the four collaborators; no call made yet |
| EducationTranslation.ImprovedTranslateCommandHandler.TranslateFragments | exercises/Translator/src/QueueProcessor/Handlers/ImprovedTranslateCommandHandler.cs:31-37 | the loop makes the translate calls of the attempted fragments and returns the first exception, or every translation in order |
| EducationTranslation.ImprovedTranslateCommandHandler.GenerateKey | exercises/Translator/src/QueueProcessor/Handlers/ImprovedTranslateCommandHandler.cs:51-57 | one code lookup; the key for today's date, the id and the code, or the lookup's exception |
| EducationTranslation.ImprovedTranslateCommandHandler.StoreAndRaise | exercises/Translator/src/QueueProcessor/Handlers/ImprovedTranslateCommandHandler.cs:39-48 | makes the calls of the storing stage and ends as it does |
| EducationTranslation.ImprovedTranslateCommandHandler.TranslateAndStore | exercises/Translator/src/QueueProcessor/Handlers/ImprovedTranslateCommandHandler.cs:31-48 | makes the calls of the translating stage and ends as it does |
| EducationTranslation.ImprovedTranslateCommandHandler.HandleAsync | exercises/Translator/src/QueueProcessor/Handlers/ImprovedTranslateCommandHandler.cs:25-49 | appends exactly the calls of Handle for the real addressing and ends as Handle does |
| CommandTranslation.Handle | exercises/Translator/src/QueueProcessor/ImprovedTranslateCommandHandler.cs:25-56 | the run makes no call exactly for ChineseSimplified, which throws ArgumentOutOfRangeException; every other run opens with the download of the education address; the lemmas below state the rest, in both directions: `StoresOnlyAfterTranslating` and `StoresWhenAllSucceed` |
| CommandTranslation.StoringAfter | exercises/Translator/src/QueueProcessor/ImprovedTranslateCommandHandler.cs:46-55 | the storing stage makes the same calls and ends the same way whatever was called before |
| CommandTranslation.TranslatingAfter | exercises/Translator/src/QueueProcessor/ImprovedTranslateCommandHandler.cs:38-55 | the translating stage makes the same calls and ends the same way whatever was called before |
| CommandTranslation.StoringCalls | exercises/Translator/src/QueueProcessor/ImprovedTranslateCommandHandler.cs:46-55 | code lookup, then the persist under the key, then the event with the command's id and language and that key; a throwing step ends the run with its exception |
| CommandTranslation.StoredPersist | exercises/Translator/src/QueueProcessor/ImprovedTranslateCommandHandler.cs:46-55 | a persist comes right after a successful code lookup; the event follows it exactly when it succeeds |
| CommandTranslation.StoredEvent | exercises/Translator/src/QueueProcessor/ImprovedTranslateCommandHandler.cs:48-55 | an event is the last call, right after a successful persist under the same key |
| CommandTranslation.TranslatedPrefix | exercises/Translator/src/QueueProcessor/ImprovedTranslateCommandHandler.cs:34-44 | the download, the extraction and the translations all come before the storing steps |
| CommandTranslation.TranslatingCalls | exercises/Translator/src/QueueProcessor/ImprovedTranslateCommandHandler.cs:40-55 | the translating stage makes the translate calls of the attempted fragments and then only storing calls |
| CommandTranslation.AttemptedAnswers | exercises/Translator/src/QueueProcessor/ImprovedTranslateCommandHandler.cs:40-44 | every attempted fragment but the last was translated; the loop stops early only because the last attempted one threw |
| CommandTranslation.ExtractingCalls | exercises/Translator/src/QueueProcessor/ImprovedTranslateCommandHandler.cs:36-55 | the extractor receives the downloaded content; a throwing extraction ends the run |
| CommandTranslation.RefusesChineseFirst | exercises/Translator/src/QueueProcessor/ImprovedTranslateCommandHandler.cs:27-30 | ChineseSimplified makes no call and throws ArgumentOutOfRangeException for ToLanguage; every other language makes at least one call |
| CommandTranslation.DownloadsThenExtracts | exercises/Translator/src/QueueProcessor/ImprovedTranslateCommandHandler.cs:32-36 | past the guard, the education page address is fetched first and once, and the extractor receives what was fetched; a throwing step ends the run |
| CommandTranslation.TranslatesFragmentsInOrder | exercises/Translator/src/QueueProcessor/ImprovedTranslateCommandHandler.cs:38-44 | one translate call per fragment, in order, with the command's language, and no translate call elsewhere |
| CommandTranslation.StopsAtFailedTranslation | exercises/Translator/src/QueueProcessor/ImprovedTranslateCommandHandler.cs:40-55 | a failed translation means no key lookup, no persist and no event; the run ends with the first failing fragment's exception |
| CommandTranslation.StoresOnlyAfterTranslating | exercises/Translator/src/QueueProcessor/ImprovedTranslateCommandHandler.cs:38-55 | storing happens only past the guard, when download, extraction and every translation succeeded, and then it stores the translations in fragment order |
| CommandTranslation.StoresWhenAllSucceed | exercises/Translator/src/QueueProcessor/ImprovedTranslateCommandHandler.cs:38-55 | for a language other than ChineseSimplified, when the download, the extraction and every translation succeed (also with no fragments), the run goes on to storing with one translation per fragment in order; the code lookup follows, then the persist under the key for that code, and when the persist succeeds the event with the id, language and key is the last call and the outcome is the dispatcher's |
| CommandTranslation.StoredCalls | exercises/Translator/src/QueueProcessor/ImprovedTranslateCommandHandler.cs:38-48 | a run that reached storing is the storing stage after exactly the download, the extraction and all the translate calls |
| CommandTranslation.StoredRun | exercises/Translator/src/QueueProcessor/ImprovedTranslateCommandHandler.cs:46-55 | a run that reached storing is the storing stage after some earlier calls |
| CommandTranslation.PersistsEveryTranslation | exercises/Translator/src/QueueProcessor/ImprovedTranslateCommandHandler.cs:38-48 | the persisted list has one entry per fragment, entry j is fragment j's translation, and the key is the one for today, the id and the translator's code |
| CommandTranslation.RaisesOnlyAfterPersist | exercises/Translator/src/QueueProcessor/ImprovedTranslateCommandHandler.cs:48-55 | a failed persist means no event; a successful one is followed by exactly one event with the command's id and language and the persisted key |
| CommandTranslation.EventFollowsPersist | exercises/Translator/src/QueueProcessor/ImprovedTranslateCommandHandler.cs:48-55 | an event is only the last call, right after a successful persist, and carries that persist's key |
| CommandTranslation.SucceedsOnlyByRaising | exercises/Translator/src/QueueProcessor/ImprovedTranslateCommandHandler.cs:25-56 | the handler completes only when the last call raised the event and the dispatcher accepted it |
| CommandTranslation.ConstructorGuard | exercises/Translator/src/QueueProcessor/ImprovedTranslateCommandHandler.cs:17-23 | passes exactly when all four collaborators are non-null; otherwise it names the first null one |
| CommandTranslation.ImprovedTranslateCommandHandler.constructor | exercises/Translator/src/QueueProcessor/ImprovedTranslateCommandHandler.cs:17-23 | keeps the four collaborators; no call made yet |
| CommandTranslation.ImprovedTranslateCommandHandler.TranslateFragments | exercises/Translator/src/QueueProcessor/ImprovedTranslateCommandHandler.cs:38-44 | the loop makes the translate calls of the attempted fragments and returns the first exception, or every translation in order |
| CommandTranslation.ImprovedTranslateCommandHandler.GenerateKey | exercises/Translator/src/QueueProcessor/ImprovedTranslateCommandHandler.cs:58-64 | one code lookup; the key for today's date, the id and the code, or the lookup's exception |
| CommandTranslation.ImprovedTranslateCommandHandler.StoreAndRaise | exercises/Translator/src/QueueProcessor/ImprovedTranslateCommandHandler.cs:46-55 | makes the calls of the storing stage and ends as it does |
| CommandTranslation.ImprovedTranslateCommandHandler.TranslateAndStore | exercises/Translator/src/QueueProcessor/ImprovedTranslateCommandHandler.cs:38-55 | makes the calls of the translating stage and ends as it does |
| CommandTranslation.ImprovedTranslateCommandHandler.HandleAsync | exercises/Translator/src/QueueProcessor/ImprovedTranslateCommandHandler.cs:25-56 | appends exactly the calls of Handle for the real addressing and ends as Handle does |
| SingleTranslation.Handle | exercises/Translator/src/QueueProcessor/Handlers/SingleTranslateCommandHandler.cs:36-69 | the run makes no call exactly for ChineseSimplified, which throws ArgumentOutOfRangeException; every other run opens with the HTTP request for the education address; the lemmas below state the rest, in both directions: `StoresOnlyAfterTranslating` and `StoresWhenAllSucceed` |
| SingleTranslation.Request | exercises/Translator/src/QueueProcessor/Handlers/SingleTranslateCommandHandler.cs:105-110 | the translate request goes from "sv" to the given target code with the text unchanged |
| SingleTranslation.PutRequest | exercises/Translator/src/QueueProcessor/Handlers/SingleTranslateCommandHandler.cs:134-140 | the put goes under the key, to the configured bucket, as text/plain, with a body that is empty exactly when there are no translations and otherwise opens with the separator line; PutsEveryTranslation and MergedContainsAll place every translation in it |
| SingleTranslation.StoringAfter | exercises/Translator/src/QueueProcessor/Handlers/SingleTranslateCommandHandler.cs:57-68 | the storing stage makes the same calls and ends the same way whatever was called before |
| SingleTranslation.TranslatingAfter | exercises/Translator/src/QueueProcessor/Handlers/SingleTranslateCommandHandler.cs:49-68 | the translating stage makes the same calls and ends the same way whatever was called before |
| SingleTranslation.StoringCalls | exercises/Translator/src/QueueProcessor/Handlers/SingleTranslateCommandHandler.cs:57-68 | the put of the merged translations under the key for the target code, then the event with the command's id and language and that key; a throwing put ends the run |
| SingleTranslation.StoredPut | exercises/Translator/src/QueueProcessor/Handlers/SingleTranslateCommandHandler.cs:59-68 | a put is the storing stage's first call; the event follows it exactly when it succeeds |
| SingleTranslation.StoredEvent | exercises/Translator/src/QueueProcessor/Handlers/SingleTranslateCommandHandler.cs:61-68 | an event is the last call, right after a successful put under the same key |
| SingleTranslation.TranslatedPrefix | exercises/Translator/src/QueueProcessor/Handlers/SingleTranslateCommandHandler.cs:45-55 | the HTTP request and the translations come before the storing steps |
| SingleTranslation.TranslatingCalls | exercises/Translator/src/QueueProcessor/Handlers/SingleTranslateCommandHandler.cs:51-68 | the translating stage sends the requests of the attempted texts and then makes only storing calls |
| SingleTranslation.AttemptedAnswers | exercises/Translator/src/QueueProcessor/Handlers/SingleTranslateCommandHandler.cs:51-55 | every attempted text but the last was translated; the loop stops early only because the last attempted one threw |
| SingleTranslation.RequestsFromSwedish | exercises/Translator/src/QueueProcessor/Handlers/SingleTranslateCommandHandler.cs:105-110 | every request goes from "sv" to the target code, with the text unchanged, in text order |
| SingleTranslation.RefusesChineseFirst | exercises/Translator/src/QueueProcessor/Handlers/SingleTranslateCommandHandler.cs:38-41 | ChineseSimplified sends no request and throws ArgumentOutOfRangeException for ToLanguage; every other declared language has a code (so for declared languages the lookups at lines 59 and 108 cannot fail) and leads to a request |
| SingleTranslation.DownloadsFirst | exercises/Translator/src/QueueProcessor/Handlers/SingleTranslateCommandHandler.cs:43-47 | past the guard, the education page address is fetched first and once; a failed fetch or extraction ends the run before any translation |
| SingleTranslation.TranslatesTextsInOrder | exercises/Translator/src/QueueProcessor/Handlers/SingleTranslateCommandHandler.cs:49-55 | one translate request per text, in text order, to the table's code for the command's language, and no request elsewhere |
| SingleTranslation.StopsAtFailedTranslation | exercises/Translator/src/QueueProcessor/Handlers/SingleTranslateCommandHandler.cs:51-68 | a failed translation means no put and no event; the run ends with the first failing text's exception |
| SingleTranslation.StoresOnlyAfterTranslating | exercises/Translator/src/QueueProcessor/Handlers/SingleTranslateCommandHandler.cs:49-68 | storing happens only past the guard, when the fetch, extraction and every translation succeeded, and then it stores the translations in text order |
| SingleTranslation.StoresWhenAllSucceed | exercises/Translator/src/QueueProcessor/Handlers/SingleTranslateCommandHandler.cs:49-68 | for a language with a code, when the fetch, the extraction and every translation succeed (also with no texts), the run goes on to storing with one translation per text in order; the put of their merge under the key for that code follows, and when it succeeds the event with the id, language and key is the last call and the outcome is the dispatcher's |
| SingleTranslation.StoredRun | exercises/Translator/src/QueueProcessor/Handlers/SingleTranslateCommandHandler.cs:57-68 | a run that reached storing is the storing stage, for the code of the command's language, after some earlier calls |
| SingleTranslation.PutsEveryTranslation | exercises/Translator/src/QueueProcessor/Handlers/SingleTranslateCommandHandler.cs:130-143 | the put goes under today's key for the id and code, to the configured bucket, as text/plain, with every text's translation merged in order |
| SingleTranslation.RaisesOnlyAfterPut | exercises/Translator/src/QueueProcessor/Handlers/SingleTranslateCommandHandler.cs:61-68 | a failed put means no event; a successful one is followed by exactly one event with the command's id and language and the stored key |
| SingleTranslation.EventFollowsPut | exercises/Translator/src/QueueProcessor/Handlers/SingleTranslateCommandHandler.cs:61-68 | an event is only the last call, right after a successful put, and carries that put's key |
| SingleTranslation.SucceedsOnlyByRaising | exercises/Translator/src/QueueProcessor/Handlers/SingleTranslateCommandHandler.cs:36-69 | the handler completes only when the last call raised the event and the dispatcher accepted it |
| SingleTranslation.ConstructorGuard | exercises/Translator/src/QueueProcessor/Handlers/SingleTranslateCommandHandler.cs:27-34 | passes exactly when http, translate, s3, options and its Value, and logger are non-null; otherwise it names the first null one |
| SingleTranslation.SingleTranslateCommandHandler.constructor | exercises/Translator/src/QueueProcessor/Handlers/SingleTranslateCommandHandler.cs:27-34 | keeps the clients and options; no call made yet |
| SingleTranslation.SingleTranslateCommandHandler.GetContent | exercises/Translator/src/QueueProcessor/Handlers/SingleTranslateCommandHandler.cs:71-84 | one HTTP request to the address; its body or its exception |
| SingleTranslation.SingleTranslateCommandHandler.TranslateContent | exercises/Translator/src/QueueProcessor/Handlers/SingleTranslateCommandHandler.cs:101-115 | one request from "sv" to the language's code with the text unchanged, and the client's answer; an unmapped language throws KeyNotFoundException before any call |
| SingleTranslation.SingleTranslateCommandHandler.TranslateTexts | exercises/Translator/src/QueueProcessor/Handlers/SingleTranslateCommandHandler.cs:49-55 | the loop sends the requests of the attempted texts and returns the first exception, or every translation in order |
| SingleTranslation.SingleTranslateCommandHandler.StoreTranslations | exercises/Translator/src/QueueProcessor/Handlers/SingleTranslateCommandHandler.cs:130-156 | one put under the key, to the configured bucket, as text/plain, with the merged translations; its outcome is S3's |
| SingleTranslation.SingleTranslateCommandHandler.StoreAndRaise | exercises/Translator/src/QueueProcessor/Handlers/SingleTranslateCommandHandler.cs:57-68 | makes the calls of the storing stage for the table's code and ends as it does |
| SingleTranslation.SingleTranslateCommandHandler.TranslateAndStore | exercises/Translator/src/QueueProcessor/Handlers/SingleTranslateCommandHandler.cs:49-68 | makes the calls of the translating stage for the table's code and ends as it does |
| SingleTranslation.SingleTranslateCommandHandler.HandleAsync | exercises/Translator/src/QueueProcessor/Handlers/SingleTranslateCommandHandler.cs:36-69 | appends exactly the calls of Handle for the real addressing and ends as Handle does |

## Left out

- Network, HTML, AWS and the dispatcher: the HTTP client, the downloaders, the HtmlAgilityPack
  extraction (`ExtractTexts`, `ITextExtractor`), the Amazon Translate and S3 clients and
  `IDispatcher` are opaque function values that answer or throw. What they compute is not modelled.
- Every collaborator is a deterministic function value, so the same argument always gets the
  same answer. Two equal fragments are translated alike. A call that succeeds once and then
  fails on a repeat is not modelled. Examples are a throttled translation of a repeated
  fragment, or an HTTP or S3 call that fails only transiently. Real clients and mocked set-ups
  can behave that way. The lemmas name the answer for fragment j as the collaborator applied
  to fragment j. With a client that is not deterministic they would have to speak of the
  answer to the j-th call instead.
- The HTML extraction of the single handler is not a recorded call: it is a private method
  of the handler, not a collaborator.
- Clock: `Clock.Default.Now` and `DateTimeOffset.UtcNow` become a `today` parameter.
- Logging: it is left out; only whether a logger was supplied matters, in the constructors' guards.
- Async: `await` is a plain sequential step, and a faulted task is the exception it carries.
- Host wiring, the message sender and the no-op test handlers are not part of this model.
- `Environment.NewLine` is taken as "\n"; no proof depends on its value.
- `new Uri(...)`: the address is the interpolated string; Uri normalisation is not modelled.
- A negative education id is rendered with a leading '-' before its padded digits. This is
  what .NET's custom format, and the plain `{EducationId}` of the address, produce under the
  invariant culture or an en-US-like culture, whose negative sign is '-'. Other cultures'
  signs are not modelled. The round-trip and injectivity lemmas hold for every id.
- The key's year uses the format "00" as the code writes it, so the year keeps all its digits.
- The two `Language` enums are closed datatypes of their declared members. A C# enum
  variable can also hold an undeclared value, such as 0 (the enums start at 1) or a number
  past the last member; such a value is not representable here.
- AmazonTranslate.MappedLanguages: holds for the declared languages only. An undeclared value
  has no entry in the table, so `GetLanguageCode` (AmazonTranslateTranslator.cs:38) throws
  KeyNotFoundException for it.
- SingleTranslation.RefusesChineseFirst: holds for the declared languages only. An undeclared
  value passes the ChineseSimplified guard and then throws KeyNotFoundException at the table
  lookup for the first text (SingleTranslateCommandHandler.cs:108), or at the key (line 59)
  when no text was extracted.
- `TranslatedEvent.FromLanguage` is never set by the handlers; it is `None` in the model.
- The tests expect Italian to be rejected by the translator and the single handler. The code
  maps Italian to "it" and rejects only ChineseSimplified; the model follows the code.
- Some tests refer to an `EducationProfileFormat` constant that the single handler does not
  have; it is not part of this model.
- Each handler's `HandleAsync` is split into stage methods (`TranslateAndStore`,
  `StoreAndRaise`) so that each stage is proved on its own. The calls and the outcome are those
  of the single C# method.
- The lemmas about `Handle` hold for any `Addressing`. The methods use the real address and
  key (`Studentum`), whose format is stated by `EducationUri` and `FileKey`.
- The `translations` list of each handler is the value its loop returns, not a mutable field.
- SingleTranslation.SingleTranslateCommandHandler.TranslateTexts: requires the language to
  pass the ChineseSimplified guard, as it does at its only call site. An unmapped language is
  handled by `TranslateContent`.
