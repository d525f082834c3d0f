# leet-clone workspace logic, modelled in Dafny

The application is a LeetCode-style site: a signed-in user opens a problem,
writes code in an editor, submits it to the problem's test handler, and marks
the problem liked, disliked, starred or solved. This project models the three
pieces of decision logic inside its React event handlers and proves what they
promise.

- **ProblemDescription** (`problem_description.dfy`) is the like / dislike / star /
  solved reconciler. The class `Panel` holds the user document (`likedProblems`,
  `dislikedProblems`, `starredProblems`, `solvedProblems`), the problem document
  (`likes`, `dislikes`), the panel's local flags and the `updating` busy flag. The
  Like and Dislike transaction bodies are the pure functions `LikeStep` and
  `DislikeStep` on a `Snapshot`. The handlers choose a branch from the LOCAL flags.
  They compute the new lists and counters from the documents read in the
  transaction. The model keeps that split and proves that flags which agree with
  list membership go on agreeing (`Consistent`). A three-state reference machine
  (`Affinity`, `LikeTarget`, `DislikeTarget`, `Weight`) states the intended
  behaviour, and lemmas prove that the steps follow it.
- **Topbar** (`topbar.dfy`) is the wrap-around ordinal of the previous/next button,
  with `MaxOrder = 5` as in the handler.
- **Playground** (`playground.dfy`) covers three things. First, cutting a
  submission at the entry-point name (`code.slice(code.indexOf(name))`, including
  the `-1` case that keeps only the last character). Second, classifying a thrown
  error by its message prefix. Third, the per-problem draft store under `code-<pid>`
  and the submit handler around them, all in the class `Editor`. `js_string.dfy`
  models the ECMAScript `indexOf`, `slice` and `startsWith` that these use, over
  strings of Unicode characters rather than UTF-16 code units.
- `id_lists.dfy` holds `filter`, Firestore's `arrayUnion` and `arrayRemove` on id
  lists. `arrayRemove` removes every instance, so it is the same function as the
  filter. `options.dfy` holds the `Option` type.

Behaviour of the code that the model reproduces on purpose:
- A Star or Solve whose `updateDoc` finds no user document rejects before
  `setUpdating(false)`. The panel then stays busy, and every later intent is a no-op.
- Solve removes the id when the local flag OR the parent's `_solved` says solved.
  Only the remove branch clears `_solved`.
- `handleSubmit` reassigns the render's `code` variable, not the state. Because
  `ExtractSubmission` is idempotent, a second submit in the same render sees the
  same text.
- `NextOrder` lands in `[1, 5]` for any integer `order`, not just one in range.

Two client methods without contracts, `ProblemDescription.DislikeThenLikeOnPanel`
and `Playground.EditThenReload`, are concrete examples of the class contracts:
they drive a fresh `Panel` through Dislike then Like, and an `Editor` through an
edit and two reloads, and assert what a caller can conclude from the contracts alone.

Affinity is meant to be one three-valued fact that cannot be liked and
disliked at once. The code keeps two booleans and two lists instead.
The model follows the code: `StepsNeverBothFlags` and `StepsPreserveConsistency`
prove how far the code really rules out "both".

## Model

| member | source | states |
|---|---|---|
| IdLists.Without | src/components/Workspace/ProblemDescription/ProblemDescription.tsx:44 | `filter(id => id !== pid)` removes every occurrence of the id; every other id keeps its multiplicity (multiset equality), so membership of the rest is unchanged |
| IdLists.WithoutAbsent | src/components/Workspace/ProblemDescription/ProblemDescription.tsx:98 | filtering out an id that is absent returns the list unchanged |
| IdLists.WithoutAppend | src/components/Workspace/ProblemDescription/ProblemDescription.tsx:53-54 | filtering distributes over the spread-append `[...list, pid]` |
| IdLists.ArrayUnion | src/components/Workspace/ProblemDescription/ProblemDescription.tsx:152 | `arrayUnion(pid)` makes the id a member, adds nothing else, keeps the old list as a prefix, and is a no-op when the id is already there |
| IdLists.Toggle | src/components/Workspace/ProblemDescription/ProblemDescription.tsx:143-155 | removing when the flag is set, else union-adding: afterwards the id is a member exactly when the flag was clear; other ids are untouched |
| IdLists.ToggleTwice | src/components/Workspace/ProblemDescription/ProblemDescription.tsx:143-155 | two toggles from the true membership restore membership of every id, and restore the list itself when the id was absent |
| ProblemDescription.NewUserDoc | src/components/Modals/Signup.tsx:58-61 | the user document written at sign-up, with all four lists empty; its meaning is stated by `NewUserDocHasNoFlags` |
| ProblemDescription.FlagsOf | src/components/Workspace/ProblemDescription/ProblemDescription.tsx:336-339 | the flags as `includes` on each list; the contracts of `Panel.LoadFlags` and `StepsPreserveConsistency` state what they are for |
| ProblemDescription.LikeStep | src/components/Workspace/ProblemDescription/ProblemDescription.tsx:41-71 | the Like transaction body: it never touches the starred and solved lists or flags and never leaves liked and disliked both set; its three branches are stated by `LikeWhileLiked`, `LikeWhileDisliked` and `LikeWhileNeutral`, and its agreement with the three-state machine by `StepsFollowStateMachine` |
| ProblemDescription.DislikeStep | src/components/Workspace/ProblemDescription/ProblemDescription.tsx:96-125 | the Dislike transaction body, with the same untouched parts and never-both guarantee; its branches are stated by `DislikeWhileDisliked`, `DislikeWhileLiked` and `DislikeWhileNeutral`, and its agreement with the machine by `StepsFollowStateMachine` |
| ProblemDescription.NewUserDocHasNoFlags | src/components/Modals/Signup.tsx:58-61 | a freshly created user document yields all four flags false |
| ProblemDescription.LikeWhileLiked | src/components/Workspace/ProblemDescription/ProblemDescription.tsx:41-50 | Like while liked: the id leaves `likedProblems` entirely, `likes` drops by 1, `dislikes` and the other lists are unchanged, `liked` becomes false |
| ProblemDescription.LikeWhileDisliked | src/components/Workspace/ProblemDescription/ProblemDescription.tsx:51-61 | Like while disliked: the id is appended to `likedProblems` and removed from `dislikedProblems`, `likes` +1, `dislikes` -1, flags become liked and not disliked |
| ProblemDescription.LikeWhileNeutral | src/components/Workspace/ProblemDescription/ProblemDescription.tsx:62-71 | Like from neutral: only the append to `likedProblems`, `likes` +1 and `liked` change |
| ProblemDescription.DislikeWhileDisliked | src/components/Workspace/ProblemDescription/ProblemDescription.tsx:96-104 | Dislike while disliked: the id leaves `dislikedProblems`, `dislikes` -1, nothing else changes, `disliked` becomes false |
| ProblemDescription.DislikeWhileLiked | src/components/Workspace/ProblemDescription/ProblemDescription.tsx:105-115 | Dislike while liked: the id is appended to `dislikedProblems` and removed from `likedProblems`, `dislikes` +1, `likes` -1, flags become disliked and not liked |
| ProblemDescription.DislikeWhileNeutral | src/components/Workspace/ProblemDescription/ProblemDescription.tsx:116-125 | Dislike from neutral: only the append to `dislikedProblems`, `dislikes` +1 and `disliked` change |
| ProblemDescription.StepsFollowStateMachine | src/components/Workspace/ProblemDescription/ProblemDescription.tsx:41-125 | from flags that are not both set, Like and Dislike move the affinity by the three-state machine, and each counter moves by exactly the change in this user's contribution to it |
| ProblemDescription.StepsNeverBothFlags | src/components/Workspace/ProblemDescription/ProblemDescription.tsx:41-125 | whatever the flags were, after Like or Dislike they are never liked and disliked at once |
| ProblemDescription.StepsPreserveConsistency | src/components/Workspace/ProblemDescription/ProblemDescription.tsx:41-125 | when the flags agree with list membership, they still agree after Like or Dislike, and the id is never in both the liked and the disliked list |
| ProblemDescription.LikeTwiceFromNeutral | src/components/Workspace/ProblemDescription/ProblemDescription.tsx:41-71 | Like, Like from a consistent neutral state returns exactly the starting documents and flags |
| ProblemDescription.LikeTwiceFromLiked | src/components/Workspace/ProblemDescription/ProblemDescription.tsx:41-71 | Like, Like from liked restores both counters and the flags, and `likedProblems` up to membership |
| ProblemDescription.DislikeTwiceFromNeutral | src/components/Workspace/ProblemDescription/ProblemDescription.tsx:96-125 | Dislike, Dislike from a consistent neutral state returns exactly the starting documents and flags |
| ProblemDescription.DislikeTwiceFromDisliked | src/components/Workspace/ProblemDescription/ProblemDescription.tsx:96-125 | Dislike, Dislike from disliked restores both counters and the flags, and `dislikedProblems` up to membership |
| ProblemDescription.DislikeThenLike | src/components/Workspace/ProblemDescription/ProblemDescription.tsx:51-61 | from neutral, Dislike gives disliked with `dislikes` +1; Like then gives liked with `likes` +1, `dislikes` back where it began and the disliked list restored |
| ProblemDescription.Panel.constructor | src/components/Workspace/ProblemDescription/ProblemDescription.tsx:21 | a panel starts not updating and with every local flag false |
| ProblemDescription.Panel.LoadFlags | src/components/Workspace/ProblemDescription/ProblemDescription.tsx:324-347 | after loading, each flag is membership of the id in its list for a signed-in user with a document, all false otherwise; so the flags agree with the document |
| ProblemDescription.Panel.Like | src/components/Workspace/ProblemDescription/ProblemDescription.tsx:25-75 | no user, a busy panel or a missing document: nothing changes; otherwise both documents and the flags become `LikeStep` of what was there; agreement of flags with lists is preserved; `updating` ends as it began |
| ProblemDescription.Panel.Dislike | src/components/Workspace/ProblemDescription/ProblemDescription.tsx:77-129 | the same as Like with `DislikeStep` |
| ProblemDescription.Panel.Star | src/components/Workspace/ProblemDescription/ProblemDescription.tsx:131-158 | no user or busy: nothing changes; missing user document: left busy; otherwise `starredProblems` is toggled by the local flag, the flag flips, no counter changes and the panel is free again |
| ProblemDescription.Panel.Solve | src/components/Workspace/ProblemDescription/ProblemDescription.tsx:160-188 | like Star on `solvedProblems`, toggled by `solved` OR `_solved`; `_solved` is false afterwards whenever the toggle ran |
| Topbar.Direction | src/components/Topbar/Topbar.tsx:28 | `+1` forward, `-1` backward; stated through `NextOrderInRange` |
| Topbar.NextOrder | src/components/Topbar/Topbar.tsx:27-41 | the next ordinal always lies in `[1, 5]`, for any integer order |
| Topbar.NextOrderInRange | src/components/Topbar/Topbar.tsx:35-41 | inside the range: forward gives `order + 1` except `5` wraps to `1`; backward gives `order - 1` except `1` wraps to `5` |
| Topbar.NextOrderInverse | src/components/Topbar/Topbar.tsx:28-41 | forward then backward, and backward then forward, return the starting ordinal |
| Topbar.WalkForward | src/components/Topbar/Topbar.tsx:28-41 | `k` forward clicks from `order` reach `(order - 1 + k) mod 5 + 1` |
| Topbar.WalkBackward | src/components/Topbar/Topbar.tsx:28-41 | `k` backward clicks from `order` reach `(order - 1 - k) mod 5 + 1` |
| Topbar.WalkIsCyclic | src/components/Topbar/Topbar.tsx:28-41 | five clicks in one direction come back to the start, and every problem is reached in fewer than five |
| JsString.IndexOfFrom | src/components/Workspace/Playground/Playground.tsx:48 | for a start position inside the string, the result is the first occurrence at or after it, or -1 when there is none |
| JsString.IndexOf | src/components/Workspace/Playground/Playground.tsx:48 | `indexOf` gives -1 exactly when the name does not occur, otherwise its first occurrence |
| JsString.Slice | src/components/Workspace/Playground/Playground.tsx:48 | `slice(start)` is a suffix, of length `len - start` for an index in range, `-start` (clamped) for a negative one |
| Playground.ExtractSubmission | src/components/Workspace/Playground/Playground.tsx:48 | the submitted text is a suffix of the code; when the entry-point name occurs it starts with the name at its first occurrence; when it does not the text is the last character (or empty) |
| Playground.ExtractSubmissionIdempotent | src/components/Workspace/Playground/Playground.tsx:48 | cutting an already cut submission changes nothing |
| JsString.StartsWith | src/components/Workspace/Playground/Playground.tsx:73 | `startsWith`: the prefix is the string's first characters; used by the contract of `ClassifyError` |
| Playground.ClassifyError | src/components/Workspace/Playground/Playground.tsx:72-77 | the report is either the generic test-failure message or the message itself, and it is the generic one exactly when the message carries the deep-equality assertion prefix (or already reads as the generic message) |
| Playground.ClassifyErrorIdempotent | src/components/Workspace/Playground/Playground.tsx:73-77 | classifying a report again changes nothing |
| Playground.Key | src/components/Workspace/Playground/Playground.tsx:84 | the storage key `code-<pid>`; stated by `KeyInjective` |
| Playground.KeyInjective | src/components/Workspace/Playground/Playground.tsx:84 | two problems with the same `code-<pid>` key are the same problem |
| Playground.DraftFor | src/components/Workspace/Playground/Playground.tsx:87-93 | the code a load yields; stated by `DraftRoundTrip`, `DraftFallback` and `DraftsIndependent`, and tied to the editor by `Editor.LoadDraft` |
| Playground.DraftRoundTrip | src/components/Workspace/Playground/Playground.tsx:82-90 | what was stored for a problem is what a signed-in load yields |
| Playground.DraftFallback | src/components/Workspace/Playground/Playground.tsx:87-93 | with nobody signed in or nothing stored, a load yields the starter code |
| Playground.DraftsIndependent | src/components/Workspace/Playground/Playground.tsx:84-88 | storing a draft for one problem never changes what another problem loads |
| Playground.Editor.constructor | src/components/Workspace/Playground/Playground.tsx:31 | the code state starts as the starter code |
| Playground.Editor.OnChange | src/components/Workspace/Playground/Playground.tsx:82-85 | an edit becomes the code state and is stored under `code-<pid>`, so a signed-in load yields it |
| Playground.Editor.LoadDraft | src/components/Workspace/Playground/Playground.tsx:87-94 | the code state becomes the stored draft for a signed-in user, the starter code otherwise |
| Playground.Editor.Submit | src/components/Workspace/Playground/Playground.tsx:41-80 | without a user only the login toast and no write; `solvedProblems` gains the id (union) and `solved` is set exactly when the handler returns truthy; a thrown Error is reported through the classification; a thrown value without a string `message` makes the catch block throw, so no toast and no write |

## Left out

- Running the submitted code (`new Function`) and the problem handlers of `@/utils/problems`, which is not part of this model. `Editor.Submit` takes the outcome as an uninterpreted function `string -> Evaluation` of the cut text.
- Firestore and the network. Each transaction is one atomic step, with no optimistic retry, concurrent writers or failed commits. A `runTransaction` that fails, and so leaves `updating` set, is not modelled. The difference between lowering `updating` inside and after the Dislike transaction callback is not modelled either.
- Playground.Editor.Submit: the user document is assumed to exist. A rejected `updateDoc` there is caught and shown as a toast of the store's own message, and that path is not modelled.
- The Panel and the Editor each hold their own copy of the user's lists. The sharing of one document, and of the parent's `_solved` state, between the two components is not modelled. Solve takes `_solved` as a parameter and returns its new value.
- The counters are modelled for one user and one problem. The property that `likes`/`dislikes` equal the number of users who like/dislike is covered only per user, by `StepsFollowStateMachine`: each step moves a counter by exactly the change in that user's contribution.
- The optimistic local copy of the problem document (`setCurrentProblem`), toasts, the `setSuccess` timer, routing, rendering and fullscreen.
- Topbar: fetching the current problem's `order` and querying the problem with the new ordinal. The model starts from the stored `order` and ends at the new ordinal.
- Strings are sequences of Unicode characters, while ECMAScript strings index UTF-16 code units. When the entry-point name is absent and the code ends in a character outside the Basic Multilingual Plane (an emoji, say), `slice(-1)` keeps a lone low surrogate, while `ExtractSubmission` keeps the whole character.
- JsString.IndexOfFrom: only positions inside the string are modelled; ECMAScript clamps a larger position to the length, which the one call, `indexOf(name)` from position 0, never needs.
- The ordinal `order` and the counters `likes` and `dislikes` are JavaScript numbers, modelled as integers: NaN (a missing `order` field gives `undefined + 1`, which passes neither wrap test), fractions and floating-point rounding are not modelled.
- `localStorage` is a `map<string, string>` of drafts. JSON encoding and decoding cancel out. Values that some other writer put under a `code-` key, and are not JSON strings, are not modelled.
- The sign-in, sign-up, password-reset, settings and preference forms, the navbar and the pages. They are UI only.
