/** Failure-carrying values shared by the whole model: what a C# call returns or throws. */
module Outcomes {

  datatype Option<+T> = None | Some(value: T)

  /** The value a call returns, or the exception it throws. */
  datatype Result<+T, +E> = Ok(value: T) | Err(error: E)

  /** A call that returns nothing (a `Task`), or the exception it throws. */
  datatype Outcome<+E> = Pass | Fail(error: E)

  /** The exceptions the core raises itself, plus any exception a collaborator throws
      (an HTTP status error, an AWS service error, ...), which the core only propagates. */
  datatype Exception =
    | ArgumentNullException(paramName: string)
    | ArgumentOutOfRangeException(paramName: string, message: string)
    | KeyNotFoundException
    | CollaboratorException(description: string)

  /** Stands for an `ILogger`; what is logged is not modelled, only whether one was supplied. */
  datatype Logger = Logger

  /** The `x ?? throw new ArgumentNullException(nameof(x))` chain of a constructor:
      `arguments` lists each parameter's name and whether it is non-null, in the order
      the constructor checks them; the first null one is reported. */
  function NullGuards(arguments: seq<(string, bool)>): (r: Outcome<Exception>)
    ensures r.Pass? <==> forall i :: 0 <= i < |arguments| ==> arguments[i].1
    ensures r.Fail? ==>
      exists i :: 0 <= i < |arguments| && !arguments[i].1
        && r.error == ArgumentNullException(arguments[i].0)
        && forall j :: 0 <= j < i ==> arguments[j].1
  {
    if arguments == [] then Pass
    else if !arguments[0].1 then Fail(ArgumentNullException(arguments[0].0))
    else
      var rest := NullGuards(arguments[1..]);
      if rest.Fail? then
        ghost var i :| 0 <= i < |arguments[1..]| && !arguments[1..][i].1
          && rest.error == ArgumentNullException(arguments[1..][i].0)
          && forall j :: 0 <= j < i ==> arguments[1..][j].1;
        assert forall j :: 0 <= j < i + 1 ==> arguments[j].1 by {
          forall j | 0 <= j < i + 1 ensures arguments[j].1 {
            if j > 0 { assert arguments[j] == arguments[1..][j - 1]; }
          }
        }
        assert arguments[i + 1] == arguments[1..][i];
        rest
      else
        assert forall i :: 0 <= i < |arguments| ==> arguments[i].1 by {
          forall i | 0 <= i < |arguments| ensures arguments[i].1 {
            if i > 0 { assert arguments[i] == arguments[1..][i - 1]; }
          }
        }
        rest
  }
}
