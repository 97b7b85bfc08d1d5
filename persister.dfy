/** The S3 persister: the translations are merged into one plain-text body, each preceded by a
    separator line, and stored with a single put. The S3 client is a parameter: it accepts a
    put request or throws. */
module AmazonS3Persistence {
  import opened Outcomes

  /** The line written before every translation: sixteen dashes. */
  const Separator := "----------------"

  /** `Environment.NewLine`, taken as on Linux; no proof depends on its value. */
  const NewLine := "\n"

  /** The bound `TranslateOptions`: the bucket that receives the translations. */
  datatype TranslateOptions = TranslateOptions(resultBucket: string)

  datatype PutObjectRequest = PutObjectRequest(
    key: string,
    bucketName: string,
    contentType: string,
    contentBody: string)

  type S3Client = PutObjectRequest -> Outcome<Exception>

  /** What the merge appends for one translation: the separator line, then the text on a line. */
  function Entry(text: string): string {
    Separator + NewLine + text + NewLine
  }

  /** A body that opens with the separator line. */
  predicate OpensWithSeparator(body: string) {
    |body| > |Separator + NewLine| && body[..|Separator + NewLine|] == Separator + NewLine
  }

  /** The merged body: the entries of the translations, in order. It is empty exactly when
      there is nothing to merge, and otherwise opens with a separator line. */
  function Merged(translations: seq<string>): (body: string)
    ensures body == "" <==> translations == []
    ensures translations != [] ==> OpensWithSeparator(body)
    decreases |translations|
  {
    if translations == [] then ""
    else Merged(translations[..|translations| - 1]) + Entry(translations[|translations| - 1])
  }

  /** `MergeContent`: the body built line by line, as the string builder does. */
  method MergeContent(contentToStore: seq<string>) returns (content: string)
    ensures content == Merged(contentToStore)
  {
    var sb := "";
    for i := 0 to |contentToStore|
      invariant sb == Merged(contentToStore[..i])
    {
      sb := sb + Separator + NewLine;
      sb := sb + contentToStore[i] + NewLine;
      assert contentToStore[..i + 1][..i] == contentToStore[..i];
    }
    assert contentToStore[..|contentToStore|] == contentToStore;
    content := sb;
  }

  /** Nothing to store gives an empty body. */
  lemma MergedEmpty()
    ensures Merged([]) == ""
  {
  }

  /** One translation gives a separator line followed by the translation on its own line. */
  lemma MergedSingle(text: string)
    ensures Merged([text]) == "----------------" + NewLine + text + NewLine
  {
    assert [text][..0] == [];
  }

  /** Merging distributes over concatenation: the order of the translations is kept. */
  lemma {:induction false} MergedAppend(xs: seq<string>, ys: seq<string>)
    ensures Merged(xs + ys) == Merged(xs) + Merged(ys)
    decreases |ys|
  {
    if ys == [] {
      assert xs + ys == xs;
    } else {
      var init, last := ys[..|ys| - 1], ys[|ys| - 1];
      MergedAppend(xs, init);
      assert (xs + ys)[..|xs + ys| - 1] == xs + init;
      assert (xs + ys)[|xs + ys| - 1] == last;
      assert Merged(xs + ys) == Merged(xs + init) + Entry(last);
      assert Merged(ys) == Merged(init) + Entry(last);
      assert Merged(xs) + Merged(ys) == (Merged(xs) + Merged(init)) + Entry(last);
    }
  }

  predicate OccursAt(s: string, part: string, offset: nat) {
    offset + |part| <= |s| && s[offset..offset + |part|] == part
  }

  /** Every translation occurs in the body, right after its separator line and after the
      entries of all translations before it. */
  lemma MergedContainsEach(translations: seq<string>, i: nat)
    requires i < |translations|
    ensures OccursAt(Merged(translations), translations[i],
                     |Merged(translations[..i])| + |Separator| + |NewLine|)
  {
    var before, after := translations[..i], translations[i + 1..];
    assert translations == before + [translations[i]] + after;
    MergedAppend(before + [translations[i]], after);
    MergedAppend(before, [translations[i]]);
    MergedSingle(translations[i]);
    var opening, closing := Merged(before) + Separator + NewLine, NewLine + Merged(after);
    assert Merged(translations) == opening + translations[i] + closing;
    MiddleSlice(opening, translations[i], closing);
  }

  lemma MiddleSlice(opening: string, part: string, closing: string)
    ensures (opening + part + closing)[|opening|..|opening| + |part|] == part
  {
  }

  /** Every translation occurs in the body at its place. */
  lemma MergedContainsAll(translations: seq<string>)
    ensures forall i :: 0 <= i < |translations| ==>
      OccursAt(Merged(translations), translations[i], |Merged(translations[..i])| + |Separator| + |NewLine|)
  {
    forall i | 0 <= i < |translations|
      ensures OccursAt(Merged(translations), translations[i], |Merged(translations[..i])| + |Separator| + |NewLine|)
    {
      MergedContainsEach(translations, i);
    }
  }

  /** The constructor's null checks, in the order it makes them; `options` is null when either
      the options wrapper or its `Value` is. */
  function ConstructorGuard(s3: Option<S3Client>, options: Option<Option<TranslateOptions>>, logger: Option<Logger>): (r: Outcome<Exception>)
    ensures r.Pass? <==> s3.Some? && options.Some? && options.value.Some? && logger.Some?
    ensures s3.None? ==> r == Fail(ArgumentNullException("s3"))
    ensures s3.Some? && (options.None? || options.value.None?) ==> r == Fail(ArgumentNullException("options"))
    ensures s3.Some? && options.Some? && options.value.Some? && logger.None? ==>
      r == Fail(ArgumentNullException("logger"))
  {
    var arguments := [("s3", s3.Some?), ("options", options.Some? && options.value.Some?), ("logger", logger.Some?)];
    assert arguments[0].1 == s3.Some? && arguments[1].1 == (options.Some? && options.value.Some?);
    assert arguments[2].1 == logger.Some?;
    NullGuards(arguments)
  }

  /** `AmazonS3TranslationPersister`, once its constructor's checks have passed. */
  class AmazonS3TranslationPersister {
    const s3: S3Client
    const options: TranslateOptions

    /** The put requests sent to S3 so far, oldest first. */
    var requests: seq<PutObjectRequest>

    constructor(s3: S3Client, options: TranslateOptions)
      ensures this.s3 == s3 && this.options == options && requests == []
    {
      this.s3 := s3;
      this.options := options;
      requests := [];
    }

    /** Exactly one put is sent: under the given key, to the configured bucket, as plain text,
        with the merged translations as its body. Whatever S3 throws is propagated. */
    method PersistTranslations(key: string, translations: seq<string>) returns (outcome: Outcome<Exception>)
      modifies this
      ensures requests == old(requests) + [PutObjectRequest(key, options.resultBucket, "text/plain", Merged(translations))]
      ensures outcome == s3(requests[|requests| - 1])
    {
      var body := MergeContent(translations);
      var request := PutObjectRequest(key, options.resultBucket, "text/plain", body);
      requests := requests + [request];
      outcome := s3(request);
    }
  }
}
