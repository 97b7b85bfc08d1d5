/** The `foreach` that every handler runs over the extracted fragments: each fragment is
    translated in turn and awaited, so the first translation that throws ends the loop, and
    otherwise there is one translation per fragment, in fragment order. Here `answers[j]` is
    what translating fragment `j` returns or throws. */
module TranslationLoop {
  import opened Outcomes

  /** The position of the first fragment whose translation throws, or the number of fragments
      when none does: the loop translates fragments 0 to this position and no further. */
  function FirstFailure<T>(answers: seq<Result<T, Exception>>): (k: nat)
    ensures k <= |answers|
    ensures forall j :: 0 <= j < k ==> answers[j].Ok?
    ensures k < |answers| ==> answers[k].Err?
  {
    if answers == [] || answers[0].Err? then 0 else 1 + FirstFailure(answers[1..])
  }

  /** The translations collected when no fragment failed, position by position. */
  function Values<T>(answers: seq<Result<T, Exception>>): (values: seq<T>)
    requires forall j :: 0 <= j < |answers| ==> answers[j].Ok?
    ensures |values| == |answers|
    ensures forall j :: 0 <= j < |answers| ==> answers[j] == Ok(values[j])
  {
    seq(|answers|, j requires 0 <= j < |answers| => answers[j].value)
  }

  /** How many fragments the loop translates: every one when none throws, otherwise up to and
      including the first that throws. All attempted fragments but the last returned a
      translation, and the loop stops early only because the last attempted one threw. */
  function Attempted<T>(answers: seq<Result<T, Exception>>): (n: nat)
    ensures n <= |answers|
    ensures forall j :: 0 <= j < n - 1 ==> answers[j].Ok?
    ensures n < |answers| ==> 1 <= n && answers[n - 1].Err?
    ensures n == |answers| <==> FirstFailure(answers) >= |answers| - 1
  {
    if FirstFailure(answers) < |answers| then FirstFailure(answers) + 1 else |answers|
  }
}
