/**
 * The code editor of the workspace: what a submission hands to the problem's
 * test handler, how a thrown error is reported, and the per-problem draft kept
 * in the browser's local storage.
 */
module Playground {
  import opened Options
  import opened IdLists
  import opened JsString

  /** The head of the string form of a failed `assert.deepStrictEqual`. */
  const AssertionPrefix: string := "AssertionError [ERR_ASSERTION]: Expected values to be strictly deep-equal:"
  const TestsFailedMessage: string := "Oops! At least one of the test cases failed. Please try again."
  const LoginRequiredMessage: string := "You must be logged in to submit your code."
  const PassedMessage: string := "Congrats! All tests passed!"

  datatype Toast = Success(text: string) | Error(text: string)

  /**
   * What happened when the extracted code was turned into a function and given to
   * the problem's handler. Evaluation itself is not modelled; it is an input.
   */
  datatype Evaluation =
    | Returned(truthy: bool)   // the handler is a function and returned a value
    | NoHandler                // `typeof handler !== "function"`
    | Threw(message: string)   // building the function, looking up or running the handler threw an Error
    | ThrewWithoutMessage      // what was thrown has no string `message` (a thrown string, null, ...)

  // ---------------------------------------------------------------------------
  // Cutting the submission.

  /**
   * `code.slice(code.indexOf(name))`: a suffix of the code. When the entry-point
   * name occurs, the suffix starts at its first occurrence; when it does not,
   * `indexOf` gives -1 and the slice keeps only the last character.
   */
  function ExtractSubmission(code: string, name: string): (r: string)
    ensures |r| <= |code| && r == code[|code| - |r|..]
    ensures Occurs(code, name) ==>
              StartsWith(r, name) && forall k :: 0 <= k < |code| - |r| ==> !OccursAt(code, name, k)
    ensures !Occurs(code, name) ==> |r| == if code == [] then 0 else 1
  {
    Slice(code, IndexOf(code, name))
  }

  /** Extracting twice gives what extracting once gave, so submitting again in the same render sees the same text. */
  lemma ExtractSubmissionIdempotent(code: string, name: string)
    ensures ExtractSubmission(ExtractSubmission(code, name), name) == ExtractSubmission(code, name)
  {
  }

  // ---------------------------------------------------------------------------
  // Reporting an error.

  /**
   * A failed deep-equality assertion gets the generic message; every other error
   * is shown as it is. So the report is one of the two, and it is the generic one
   * exactly for assertion failures (or for an error that already reads so).
   */
  function ClassifyError(message: string): (report: string)
    ensures report == TestsFailedMessage || report == message
    ensures report == TestsFailedMessage <==> StartsWith(message, AssertionPrefix) || message == TestsFailedMessage
  {
    if StartsWith(message, AssertionPrefix) then TestsFailedMessage else message
  }

  /** Classifying a report again changes nothing: the generic message does not carry the assertion prefix. */
  lemma ClassifyErrorIdempotent(message: string)
    ensures ClassifyError(ClassifyError(message)) == ClassifyError(message)
  {
  }

  // ---------------------------------------------------------------------------
  // Drafts.

  /** The local-storage key of a problem's draft. */
  function Key(pid: string): string {
    "code-" + pid
  }

  /** Different problems never share a key. */
  lemma {:induction false} KeyInjective(p: string, q: string)
    requires Key(p) == Key(q)
    ensures p == q
  {
    assert p == Key(p)[5..];
    assert q == Key(q)[5..];
  }

  /**
   * The code the editor shows after the loading effect. The storage is modelled
   * at the level of the drafts themselves (stringify and parse cancel out); a
   * stored value is always truthy, since the JSON text of any string is non-empty.
   */
  function DraftFor(storage: map<string, string>, pid: string, starterCode: string, signedIn: bool): string {
    if signedIn && Key(pid) in storage then storage[Key(pid)] else starterCode
  }

  /** What was stored for a problem is what a signed-in load gives back. */
  lemma DraftRoundTrip(storage: map<string, string>, pid: string, starterCode: string, value: string)
    ensures DraftFor(storage[Key(pid) := value], pid, starterCode, true) == value
  {
  }

  /** The starter code is shown when nobody is signed in or nothing is stored for the problem. */
  lemma DraftFallback(storage: map<string, string>, pid: string, starterCode: string, signedIn: bool)
    requires !signedIn || Key(pid) !in storage
    ensures DraftFor(storage, pid, starterCode, signedIn) == starterCode
  {
  }

  /** Editing one problem's draft never changes what another problem loads. */
  lemma DraftsIndependent(storage: map<string, string>, p: string, q: string,
                          starterCode: string, signedIn: bool, value: string)
    requires p != q
    ensures DraftFor(storage[Key(p) := value], q, starterCode, signedIn) == DraftFor(storage, q, starterCode, signedIn)
  {
    if Key(p) == Key(q) {
      KeyInjective(p, q);
    }
  }

  // ---------------------------------------------------------------------------
  // The editor.

  /**
   * One editor for one problem: the code state, the browser's local storage, the
   * `solvedProblems` list of the signed-in user's document and the parent's
   * `solved` state that a passing submission sets.
   */
  class Editor {
    const pid: string
    const starterCode: string
    const starterFunctionName: string
    var code: string
    var storage: map<string, string>
    var solvedProblems: seq<string>
    var solved: bool

    /** The code state starts as the starter code. */
    constructor (pid: string, starterCode: string, starterFunctionName: string,
                 storage: map<string, string>, solvedProblems: seq<string>, solved: bool)
      ensures this.pid == pid && this.starterCode == starterCode
      ensures this.starterFunctionName == starterFunctionName
      ensures code == starterCode && this.storage == storage
      ensures this.solvedProblems == solvedProblems && this.solved == solved
    {
      this.pid := pid;
      this.starterCode := starterCode;
      this.starterFunctionName := starterFunctionName;
      code := starterCode;
      this.storage := storage;
      this.solvedProblems := solvedProblems;
      this.solved := solved;
    }

    /** Every edit becomes the code state and is saved under the problem's key. */
    method OnChange(value: string)
      modifies this`code, this`storage
      ensures code == value
      ensures storage == old(storage)[Key(pid) := value]
      ensures DraftFor(storage, pid, starterCode, true) == value
    {
      code := value;
      storage := storage[Key(pid) := value];
    }

    /** The loading effect: the saved draft for a signed-in user, else the starter code. */
    method LoadDraft(signedIn: bool)
      modifies this`code
      ensures code == DraftFor(storage, pid, starterCode, signedIn)
      ensures !signedIn || Key(pid) !in storage ==> code == starterCode
    {
      var stored: Option<string> := if Key(pid) in storage then Some(storage[Key(pid)]) else None;
      if signedIn {
        code := if stored.Some? then stored.value else starterCode;
      } else {
        code := starterCode;
      }
    }

    /**
     * Submit: without a user only the login toast appears. Otherwise the cut code
     * goes to the evaluator; on a truthy result the problem id joins
     * `solvedProblems` (set-union) and the parent's `solved` is set; a thrown error
     * is reported through `ClassifyError`. When what was thrown has no string
     * `message`, the catch block itself throws on `error.message.startsWith`, the
     * handler rejects and no toast appears. The code state itself is not changed.
     */
    method Submit(signedIn: bool, evaluate: string -> Evaluation) returns (toast: Option<Toast>)
      modifies this`solvedProblems, this`solved
      ensures !signedIn ==> toast == Some(Error(LoginRequiredMessage))
      ensures var passed := signedIn && evaluate(ExtractSubmission(code, starterFunctionName)) == Returned(true);
              && (passed ==> toast == Some(Success(PassedMessage))
                             && solvedProblems == ArrayUnion(old(solvedProblems), pid) && solved)
              && (!passed ==> solvedProblems == old(solvedProblems) && solved == old(solved))
              && (forall id :: id in solvedProblems <==> id in old(solvedProblems) || (passed && id == pid))
      ensures signedIn ==> match evaluate(ExtractSubmission(code, starterFunctionName))
                           case Returned(truthy) => truthy || toast == None
                           case NoHandler => toast == None
                           case Threw(message) => toast == Some(Error(ClassifyError(message)))
                           case ThrewWithoutMessage => toast == None
    {
      if !signedIn {
        return Some(Error(LoginRequiredMessage));
      }
      var submitted := ExtractSubmission(code, starterFunctionName);
      var outcome := evaluate(submitted);
      match outcome {
        case Returned(truthy) =>
          if truthy {
            toast := Some(Success(PassedMessage));
            solvedProblems := ArrayUnion(solvedProblems, pid);
            solved := true;
          } else {
            toast := None;
          }
        case NoHandler =>
          toast := None;
        case Threw(message) =>
          toast := Some(Error(ClassifyError(message)));
        case ThrewWithoutMessage =>
          toast := None;
      }
    }
  }

  /** An edit survives reloading the problem for a signed-in user, and not for a signed-out one. */
  method EditThenReload(pid: string, starterCode: string, name: string, value: string)
  {
    var editor := new Editor(pid, starterCode, name, map[], [], false);
    editor.OnChange(value);
    editor.LoadDraft(true);
    assert editor.code == value;
    editor.LoadDraft(false);
    assert editor.code == starterCode;
  }
}
