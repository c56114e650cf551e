/** Shared vocabulary of the model: optional values, results that carry the
    exception a parser would raise, and the abstract views of text input. */
module Common {

  datatype Option<T> = None | Some(value: T)

  /** The exceptions the parsers raise, by kind. Several are the same Python
      class (ValueError) raised for different reasons; they are kept apart here. */
  datatype Error =
    | FileNotFound          // FileNotFoundError('Neither dir nor file')
    | UnsupportedFileType   // ValueError('Non-supported file type ...')
    | MalformedNumber       // ValueError raised by float() or by the literal repair
    | IndexOutOfRange       // IndexError
    | MissingKey            // KeyError
    | BadShape              // ValueError raised by np.loadtxt or reshape
    | NotSorted             // AssertionError
    | OperandType           // TypeError

  datatype Result<T> = Success(value: T) | Failure(error: Error) {
    predicate IsFailure() { Failure? }
    function PropagateFailure<U>(): Result<U> requires Failure? { Failure(error) }
    function Extract(): T requires Success? { value }
  }

  datatype Outcome = Pass | Fail(error: Error)

  /** One line of a text file after strip().split(): a blank line is []. */
  type Line = seq<string>

  /** Python's float() on one token; None stands for the ValueError it raises. */
  type FloatParser = string -> Option<real>

  function ParseNumber(toFloat: FloatParser, token: string): (r: Result<real>)
    ensures r.Success? <==> toFloat(token).Some?
    ensures r.Success? ==> r.value == toFloat(token).value
    ensures r.Failure? ==> r.error == MalformedNumber
  {
    match toFloat(token)
    case Some(x) => Success(x)
    case None => Failure(MalformedNumber)
  }

  /** The lines of a file without its blank ones, in order. */
  function NonBlank(lines: seq<Line>): (r: seq<Line>)
    ensures |r| <= |lines|
    ensures forall k :: 0 <= k < |r| ==> r[k] != [] && r[k] in lines
  {
    if lines == [] then []
    else
      var last := lines[|lines| - 1];
      NonBlank(lines[..|lines| - 1]) + if last == [] then [] else [last]
  }

  /** A single line is kept exactly when it is not blank. */
  lemma NonBlankLine(l: Line)
    ensures NonBlank([l]) == if l == [] then [] else [l]
  {
    assert [l][..0] == [];
  }

  /** A concatenation is filtered part by part; with NonBlankLine, every
      non-blank line is kept, in order. */
  lemma {:induction false} NonBlankAppend(a: seq<Line>, b: seq<Line>)
    ensures NonBlank(a + b) == NonBlank(a) + NonBlank(b)
    decreases |b|
  {
    if b == [] {
      assert a + b == a;
    } else {
      var init := b[..|b| - 1];
      NonBlankAppend(a, init);
      assert (a + b)[..|a + b| - 1] == a + init && (a + b)[|a + b| - 1] == b[|b| - 1];
    }
  }

  ghost predicate Distinct<T>(s: seq<T>) {
    forall i, j :: 0 <= i < j < |s| ==> s[i] != s[j]
  }

  function Min(a: int, b: int): int { if a < b then a else b }
}
