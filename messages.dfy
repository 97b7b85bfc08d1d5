/** The messages of the `TranslateCommand` handlers: the command, its ten-language enum and
    the event raised once a translation is stored. */
module Messages {
  import opened Outcomes

  /** A C# `int`. */
  type Int32 = x: int | -0x8000_0000 <= x < 0x8000_0000

  /** Target languages of a `TranslateCommand` (enum values 1 to 10, in this order). */
  datatype Language =
    | English | German | Swedish | Norwegian | Finnish
    | Danish | French | Italian | Russian | ChineseSimplified

  datatype TranslateCommand = TranslateCommand(educationId: Int32, toLanguage: Language)

  /** `fromLanguage` is `None` when it keeps the default enum value 0, which names no language. */
  datatype TranslatedEvent = TranslatedEvent(
    educationId: Int32,
    fromLanguage: Option<Language>,
    toLanguage: Language,
    translationFileKey: string)
}

/** The messages of the education-profile handler: its own eight-language enum. */
module EducationMessages {
  import Messages

  /** Target languages of a `TranslateEducationCommand` (enum values 1 to 8, in this order). */
  datatype Language =
    | English | German | Swedish | Norwegian | Finnish | Danish | French | Italian

  datatype TranslateEducationCommand = TranslateEducationCommand(educationId: Messages.Int32, toLanguage: Language)

  datatype EducationTranslatedEvent = EducationTranslatedEvent(
    educationId: Messages.Int32,
    toLanguage: Language,
    translationFileKey: string)
}
