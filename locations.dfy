/** Where a translation comes from and where it goes: the education page address that the
    `TranslateCommand` handlers download, and the storage key under which every handler
    persists the merged translation (`translations/{yyyy}/{MM}/{dd}/{id:12 digits}/{code}`). */
module Locations {
  import opened Outcomes
  import opened Formatting

  /** The calendar date read from the clock when the key is generated. */
  datatype Date = Date(year: int, month: int, day: int)

  /** What a storage key is made from. */
  datatype KeyParts = KeyParts(date: Date, educationId: int, languageCode: string)

  const EducationUriPrefix := "https://www.studentum.se/education/"

  /** The page downloaded for an education: its id appended, in plain decimal, to the site's
      education path; the id can be read back from what follows the prefix. */
  function EducationUri(educationId: int): (uri: string)
    ensures |uri| > |EducationUriPrefix| && uri[..|EducationUriPrefix|] == EducationUriPrefix
    ensures ParseInt(uri[|EducationUriPrefix|..]) == Some(educationId)
  {
    FormatIntRoundTrip(educationId, 1);
    var uri := EducationUriPrefix + FormatInt(educationId, 1);
    assert uri[|EducationUriPrefix|..] == FormatInt(educationId, 1);
    uri
  }

  /** The storage key of a translation: its pieces joined by '/'. Year, month and day use the
      format `00` (at least two digits), the education id the format `000000000000` (at least
      twelve). A key whose language code has no '/' splits back into exactly those pieces, and
      is read back into the date, id and code it was made from. */
  function FileKey(today: Date, educationId: int, languageCode: string): (key: string)
    ensures '/' !in languageCode ==> Split(key, '/') == KeyPieces(today, educationId, languageCode)
    ensures '/' !in languageCode ==> ParseFileKey(key) == Some(KeyParts(today, educationId, languageCode))
  {
    KeyPiecesRoundTrip(today, educationId, languageCode);
    Join(KeyPieces(today, educationId, languageCode), '/')
  }

  /** How the handlers address things: the page of an education, and the storage key of a
      translation made on a date, for an education, into a language code. The handlers'
      behaviour is stated for any addressing; the one they use is `Studentum`. */
  datatype Addressing = Addressing(educationUri: int -> string, fileKey: (Date, int, string) -> string)

  const Studentum := Addressing(EducationUri, FileKey)

  function KeyPieces(today: Date, educationId: int, languageCode: string): seq<string>
  {
    ["translations", FormatInt(today.year, 2), FormatInt(today.month, 2),
     FormatInt(today.day, 2), FormatInt(educationId, 12), languageCode]
  }

  /** Reads a storage key back into the date, id and language code it was made from. */
  function ParseFileKey(key: string): Option<KeyParts>
  {
    var parts := Split(key, '/');
    if |parts| == 6 && parts[0] == "translations"
      && ParseInt(parts[1]).Some? && ParseInt(parts[2]).Some? && ParseInt(parts[3]).Some?
      && ParseInt(parts[4]).Some?
    then
      Some(KeyParts(
        Date(ParseInt(parts[1]).value, ParseInt(parts[2]).value, ParseInt(parts[3]).value),
        ParseInt(parts[4]).value,
        parts[5]))
    else None
  }

  /** The pieces of `s` between occurrences of `sep` (one piece when `sep` does not occur). */
  function Split(s: string, sep: char): (parts: seq<string>)
    ensures |parts| >= 1
    decreases |s|
  {
    if s == [] then [[]]
    else
      var rest := Split(s[1..], sep);
      if s[0] == sep then [[]] + rest else [[s[0]] + rest[0]] + rest[1..]
  }

  /** The pieces joined with `sep` between neighbours. */
  function Join(parts: seq<string>, sep: char): string
    requires |parts| >= 1
    decreases |parts|
  {
    if |parts| == 1 then parts[0] else parts[0] + [sep] + Join(parts[1..], sep)
  }

  lemma {:induction false} SplitSinglePiece(a: string, sep: char)
    requires sep !in a
    ensures Split(a, sep) == [a]
    decreases |a|
  {
    if a != [] {
      SplitSinglePiece(a[1..], sep);
      assert [a[0]] + a[1..] == a;
    }
  }

  lemma {:induction false} SplitFirstPiece(a: string, sep: char, b: string)
    requires sep !in a
    ensures Split(a + [sep] + b, sep) == [a] + Split(b, sep)
    decreases |a|
  {
    if a == [] {
      assert (a + [sep] + b)[1..] == b;
    } else {
      SplitFirstPiece(a[1..], sep, b);
      assert (a + [sep] + b)[1..] == a[1..] + [sep] + b;
      assert [a[0]] + a[1..] == a;
    }
  }

  /** Splitting undoes joining when no piece contains the separator. */
  lemma {:induction false} SplitJoin(parts: seq<string>, sep: char)
    requires |parts| >= 1
    requires forall i :: 0 <= i < |parts| ==> sep !in parts[i]
    ensures Split(Join(parts, sep), sep) == parts
    decreases |parts|
  {
    if |parts| == 1 {
      SplitSinglePiece(parts[0], sep);
    } else {
      SplitJoin(parts[1..], sep);
      SplitFirstPiece(parts[0], sep, Join(parts[1..], sep));
      assert [parts[0]] + parts[1..] == parts;
    }
  }

  lemma NoSlashInNumber(n: int, minDigits: nat)
    ensures '/' !in FormatInt(n, minDigits)
  {
    var s := FormatInt(n, minDigits);
    if n < 0 {
      forall i | 1 <= i < |s| ensures s[i] != '/' {
        assert s[i] == s[1..][i - 1];
      }
    }
  }

  /** The pieces of a key, joined and split again, come back unchanged, and each number is
      read back from its piece. */
  lemma KeyPiecesRoundTrip(today: Date, educationId: int, languageCode: string)
    ensures var key := Join(KeyPieces(today, educationId, languageCode), '/');
      '/' !in languageCode ==>
        && Split(key, '/') == KeyPieces(today, educationId, languageCode)
        && ParseFileKey(key) == Some(KeyParts(today, educationId, languageCode))
  {
    if '/' !in languageCode {
      NoSlashInNumber(today.year, 2);
      NoSlashInNumber(today.month, 2);
      NoSlashInNumber(today.day, 2);
      NoSlashInNumber(educationId, 12);
      SplitJoin(KeyPieces(today, educationId, languageCode), '/');
      FormatIntRoundTrip(today.year, 2);
      FormatIntRoundTrip(today.month, 2);
      FormatIntRoundTrip(today.day, 2);
      FormatIntRoundTrip(educationId, 12);
    }
  }

  /** The same date, id and language code always give the same key (a rerun on the same day
      overwrites), and any difference in them gives a different key. */
  lemma FileKeyInjective(d1: Date, id1: int, code1: string, d2: Date, id2: int, code2: string)
    requires '/' !in code1 && '/' !in code2
    ensures FileKey(d1, id1, code1) == FileKey(d2, id2, code2) <==> d1 == d2 && id1 == id2 && code1 == code2
  {
    if FileKey(d1, id1, code1) == FileKey(d2, id2, code2) {
      assert ParseFileKey(FileKey(d1, id1, code1)) == ParseFileKey(FileKey(d2, id2, code2));
    }
  }

  lemma ExampleNumbers()
    ensures FormatInt(2023, 2) == "2023" && FormatInt(4, 2) == "04" && FormatInt(5, 2) == "05"
  {
    assert Digits(2023) == "2023";
    assert Zeros(1) == "0";
  }

  lemma ExampleId()
    ensures FormatInt(294571, 12) == "000000294571"
  {
    assert Digits(294571) == "294571";
    assert Zeros(6) == "000000";
  }

  /** A worked example of the key format: its pieces for education 294571 translated to
      English on 5 April 2023. */
  lemma FileKeyExample()
    ensures Split(FileKey(Date(2023, 4, 5), 294571, "en"), '/') ==
      ["translations", "2023", "04", "05", "000000294571", "en"]
  {
    ExampleNumbers();
    ExampleId();
  }
}
