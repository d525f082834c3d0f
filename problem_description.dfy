/**
 * The like / dislike / star / solved buttons of the problem description panel.
 *
 * The panel keeps a local view of four flags, loaded from list membership on the
 * user document. Like and Dislike run one Firestore transaction each: the branch is
 * chosen by the LOCAL flags, the new lists and counters are computed from the two
 * documents read inside the transaction. Star and Solve call `updateDoc` with
 * `arrayRemove` / `arrayUnion` on the user document only.
 */
module ProblemDescription {
  import opened Options
  import opened IdLists

  /** The fields of a `users/<uid>` document that the panel reads and writes. */
  datatype UserDoc = UserDoc(likedProblems: seq<string>, dislikedProblems: seq<string>,
                             starredProblems: seq<string>, solvedProblems: seq<string>)

  /** The counters of a `problems/<pid>` document. */
  datatype ProblemDoc = ProblemDoc(likes: int, dislikes: int)

  /** The panel's local state `{ liked, disliked, starred, solved }`. */
  datatype Flags = Flags(liked: bool, disliked: bool, starred: bool, solved: bool)

  const NoFlags := Flags(false, false, false, false)

  /** The user document written at sign-up: every list empty. */
  function NewUserDoc(): UserDoc {
    UserDoc([], [], [], [])
  }

  /** The flags as the loading hook derives them, by `includes` on each list. */
  function FlagsOf(u: UserDoc, pid: string): Flags {
    Flags(pid in u.likedProblems, pid in u.dislikedProblems,
          pid in u.starredProblems, pid in u.solvedProblems)
  }

  /** A fresh account has neither liked, disliked, starred nor solved anything. */
  lemma NewUserDocHasNoFlags(pid: string)
    ensures FlagsOf(NewUserDoc(), pid) == NoFlags
  {
  }

  /** Both documents and the local flags, as one Like or Dislike transaction sees and leaves them. */
  datatype Snapshot = Snapshot(user: UserDoc, problem: ProblemDoc, flags: Flags)

  /** The local flags agree with list membership on the user document. */
  ghost predicate Consistent(s: Snapshot, pid: string) {
    s.flags == FlagsOf(s.user, pid)
  }

  // ---------------------------------------------------------------------------
  // The intended three-state affinity machine, as an independent reference.

  datatype Affinity = Neutral | Liked | Disliked

  /**
   * Which state the flags stand for; `liked` is tested first, as `handleLike` does
   * (`handleDislike` tests `disliked` first). The order matters only when both flags
   * are set, a case the lemmas that use this function exclude.
   */
  function AffinityOf(f: Flags): Affinity {
    if f.liked then Liked else if f.disliked then Disliked else Neutral
  }

  function LikeTarget(a: Affinity): Affinity {
    match a
    case Neutral => Liked
    case Liked => Neutral
    case Disliked => Liked
  }

  function DislikeTarget(a: Affinity): Affinity {
    match a
    case Neutral => Disliked
    case Disliked => Neutral
    case Liked => Disliked
  }

  /** How many users' worth of like (first) and dislike (second) an affinity contributes. */
  function Weight(a: Affinity): (int, int) {
    match a
    case Neutral => (0, 0)
    case Liked => (1, 0)
    case Disliked => (0, 1)
  }

  // ---------------------------------------------------------------------------
  // The transaction bodies.

  /**
   * The body of the Like transaction, on documents that both exist. It never
   * touches the starred and solved lists or flags, and never leaves the flags both set.
   */
  function LikeStep(s: Snapshot, pid: string): (r: Snapshot)
    ensures r.user.starredProblems == s.user.starredProblems && r.user.solvedProblems == s.user.solvedProblems
    ensures r.flags.starred == s.flags.starred && r.flags.solved == s.flags.solved
    ensures !(r.flags.liked && r.flags.disliked)
  {
    var u := s.user;
    var p := s.problem;
    var f := s.flags;
    if f.liked then
      Snapshot(u.(likedProblems := Without(u.likedProblems, pid)),
               p.(likes := p.likes - 1),
               f.(liked := false))
    else if f.disliked then
      Snapshot(u.(likedProblems := u.likedProblems + [pid],
                  dislikedProblems := Without(u.dislikedProblems, pid)),
               p.(likes := p.likes + 1, dislikes := p.dislikes - 1),
               f.(liked := true, disliked := false))
    else
      Snapshot(u.(likedProblems := u.likedProblems + [pid]),
               p.(likes := p.likes + 1),
               f.(liked := true))
  }

  /**
   * The body of the Dislike transaction, on documents that both exist. It never
   * touches the starred and solved lists or flags, and never leaves the flags both set.
   */
  function DislikeStep(s: Snapshot, pid: string): (r: Snapshot)
    ensures r.user.starredProblems == s.user.starredProblems && r.user.solvedProblems == s.user.solvedProblems
    ensures r.flags.starred == s.flags.starred && r.flags.solved == s.flags.solved
    ensures !(r.flags.liked && r.flags.disliked)
  {
    var u := s.user;
    var p := s.problem;
    var f := s.flags;
    if f.disliked then
      Snapshot(u.(dislikedProblems := Without(u.dislikedProblems, pid)),
               p.(dislikes := p.dislikes - 1),
               f.(disliked := false))
    else if f.liked then
      Snapshot(u.(dislikedProblems := u.dislikedProblems + [pid],
                  likedProblems := Without(u.likedProblems, pid)),
               p.(dislikes := p.dislikes + 1, likes := p.likes - 1),
               f.(disliked := true, liked := false))
    else
      Snapshot(u.(dislikedProblems := u.dislikedProblems + [pid]),
               p.(dislikes := p.dislikes + 1),
               f.(disliked := true))
  }

  // ---------------------------------------------------------------------------
  // Like, branch by branch.

  /** Like while liked: the id leaves `likedProblems` entirely and `likes` drops by one; nothing else moves. */
  lemma LikeWhileLiked(s: Snapshot, pid: string)
    requires s.flags.liked
    ensures var r := LikeStep(s, pid);
            && pid !in r.user.likedProblems
            && (forall y :: y != pid ==> (y in r.user.likedProblems <==> y in s.user.likedProblems))
            && r.user.dislikedProblems == s.user.dislikedProblems
            && r.user.starredProblems == s.user.starredProblems
            && r.user.solvedProblems == s.user.solvedProblems
            && r.problem.likes == s.problem.likes - 1
            && r.problem.dislikes == s.problem.dislikes
            && !r.flags.liked && r.flags.disliked == s.flags.disliked
  {
  }

  /** Like while disliked: the id is appended to the liked list and leaves the disliked list; likes +1, dislikes -1. */
  lemma LikeWhileDisliked(s: Snapshot, pid: string)
    requires !s.flags.liked && s.flags.disliked
    ensures var r := LikeStep(s, pid);
            && r.user.likedProblems == s.user.likedProblems + [pid]
            && pid !in r.user.dislikedProblems
            && (forall y :: y != pid ==> (y in r.user.dislikedProblems <==> y in s.user.dislikedProblems))
            && r.user.starredProblems == s.user.starredProblems
            && r.user.solvedProblems == s.user.solvedProblems
            && r.problem.likes == s.problem.likes + 1
            && r.problem.dislikes == s.problem.dislikes - 1
            && r.flags.liked && !r.flags.disliked
  {
  }

  /** Like from neutral: the id is appended to the liked list and likes +1; nothing else changes. */
  lemma LikeWhileNeutral(s: Snapshot, pid: string)
    requires !s.flags.liked && !s.flags.disliked
    ensures var r := LikeStep(s, pid);
            && r.user == s.user.(likedProblems := s.user.likedProblems + [pid])
            && r.problem == s.problem.(likes := s.problem.likes + 1)
            && r.flags == s.flags.(liked := true)
  {
  }

  // ---------------------------------------------------------------------------
  // Dislike, the mirror image.

  lemma DislikeWhileDisliked(s: Snapshot, pid: string)
    requires s.flags.disliked
    ensures var r := DislikeStep(s, pid);
            && pid !in r.user.dislikedProblems
            && (forall y :: y != pid ==> (y in r.user.dislikedProblems <==> y in s.user.dislikedProblems))
            && r.user.likedProblems == s.user.likedProblems
            && r.user.starredProblems == s.user.starredProblems
            && r.user.solvedProblems == s.user.solvedProblems
            && r.problem.dislikes == s.problem.dislikes - 1
            && r.problem.likes == s.problem.likes
            && !r.flags.disliked && r.flags.liked == s.flags.liked
  {
  }

  lemma DislikeWhileLiked(s: Snapshot, pid: string)
    requires !s.flags.disliked && s.flags.liked
    ensures var r := DislikeStep(s, pid);
            && r.user.dislikedProblems == s.user.dislikedProblems + [pid]
            && pid !in r.user.likedProblems
            && (forall y :: y != pid ==> (y in r.user.likedProblems <==> y in s.user.likedProblems))
            && r.user.starredProblems == s.user.starredProblems
            && r.user.solvedProblems == s.user.solvedProblems
            && r.problem.dislikes == s.problem.dislikes + 1
            && r.problem.likes == s.problem.likes - 1
            && r.flags.disliked && !r.flags.liked
  {
  }

  lemma DislikeWhileNeutral(s: Snapshot, pid: string)
    requires !s.flags.liked && !s.flags.disliked
    ensures var r := DislikeStep(s, pid);
            && r.user == s.user.(dislikedProblems := s.user.dislikedProblems + [pid])
            && r.problem == s.problem.(dislikes := s.problem.dislikes + 1)
            && r.flags == s.flags.(disliked := true)
  {
  }

  // ---------------------------------------------------------------------------
  // What holds across branches.

  /**
   * Like and Dislike follow the three-state machine, and each counter moves by
   * exactly the change in the user's contribution to it.
   */
  lemma StepsFollowStateMachine(s: Snapshot, pid: string)
    requires !(s.flags.liked && s.flags.disliked)
    ensures AffinityOf(LikeStep(s, pid).flags) == LikeTarget(AffinityOf(s.flags))
    ensures AffinityOf(DislikeStep(s, pid).flags) == DislikeTarget(AffinityOf(s.flags))
    ensures var r := LikeStep(s, pid);
            r.problem.likes - Weight(AffinityOf(r.flags)).0 == s.problem.likes - Weight(AffinityOf(s.flags)).0
            && r.problem.dislikes - Weight(AffinityOf(r.flags)).1 == s.problem.dislikes - Weight(AffinityOf(s.flags)).1
    ensures var r := DislikeStep(s, pid);
            r.problem.likes - Weight(AffinityOf(r.flags)).0 == s.problem.likes - Weight(AffinityOf(s.flags)).0
            && r.problem.dislikes - Weight(AffinityOf(r.flags)).1 == s.problem.dislikes - Weight(AffinityOf(s.flags)).1
  {
  }

  /** Whatever the flags were, neither step leaves them liked and disliked at once. */
  lemma StepsNeverBothFlags(s: Snapshot, pid: string)
    ensures !(LikeStep(s, pid).flags.liked && LikeStep(s, pid).flags.disliked)
    ensures !(DislikeStep(s, pid).flags.liked && DislikeStep(s, pid).flags.disliked)
  {
  }

  /**
   * From flags that agree with the user document, both steps keep them agreeing,
   * and so the id is never left in both the liked and the disliked list.
   */
  lemma StepsPreserveConsistency(s: Snapshot, pid: string)
    requires Consistent(s, pid)
    ensures Consistent(LikeStep(s, pid), pid)
    ensures Consistent(DislikeStep(s, pid), pid)
    ensures !(pid in LikeStep(s, pid).user.likedProblems && pid in LikeStep(s, pid).user.dislikedProblems)
    ensures !(pid in DislikeStep(s, pid).user.likedProblems && pid in DislikeStep(s, pid).user.dislikedProblems)
  {
  }

  /** Like, Like from neutral gives back exactly the documents and flags it started from. */
  lemma LikeTwiceFromNeutral(s: Snapshot, pid: string)
    requires Consistent(s, pid) && AffinityOf(s.flags) == Neutral
    ensures LikeStep(LikeStep(s, pid), pid) == s
  {
    var once := LikeStep(s, pid);
    assert once.user.likedProblems == s.user.likedProblems + [pid];
    assert once.flags == s.flags.(liked := true);
    WithoutAppend(s.user.likedProblems, [pid], pid);
    WithoutAbsent(s.user.likedProblems, pid);
    assert Without(once.user.likedProblems, pid) == s.user.likedProblems;
  }

  /** Like, Like from liked restores the counters and the flags, and the liked list up to membership. */
  lemma LikeTwiceFromLiked(s: Snapshot, pid: string)
    requires s.flags.liked && !s.flags.disliked
    ensures var r := LikeStep(LikeStep(s, pid), pid);
            r.problem == s.problem && r.flags == s.flags
            && (forall y :: y in r.user.likedProblems <==> y in s.user.likedProblems || y == pid)
  {
  }

  /** Dislike, Dislike from neutral gives back exactly the documents and flags it started from. */
  lemma DislikeTwiceFromNeutral(s: Snapshot, pid: string)
    requires Consistent(s, pid) && AffinityOf(s.flags) == Neutral
    ensures DislikeStep(DislikeStep(s, pid), pid) == s
  {
    var once := DislikeStep(s, pid);
    assert once.user.dislikedProblems == s.user.dislikedProblems + [pid];
    assert once.flags == s.flags.(disliked := true);
    WithoutAppend(s.user.dislikedProblems, [pid], pid);
    WithoutAbsent(s.user.dislikedProblems, pid);
    assert Without(once.user.dislikedProblems, pid) == s.user.dislikedProblems;
  }

  /** Dislike, Dislike from disliked restores the counters and the flags, and the disliked list up to membership. */
  lemma DislikeTwiceFromDisliked(s: Snapshot, pid: string)
    requires s.flags.disliked && !s.flags.liked
    ensures var r := DislikeStep(DislikeStep(s, pid), pid);
            r.problem == s.problem && r.flags == s.flags
            && (forall y :: y in r.user.dislikedProblems <==> y in s.user.dislikedProblems || y == pid)
  {
  }

  /**
   * Dislike then Like from neutral: Dislike leaves the user disliking with one
   * more dislike; Like then leaves them liking, with one more like and the dislike undone.
   */
  lemma DislikeThenLike(s: Snapshot, pid: string)
    requires Consistent(s, pid) && AffinityOf(s.flags) == Neutral
    ensures var d := DislikeStep(s, pid);
            var l := LikeStep(d, pid);
            && AffinityOf(d.flags) == Disliked
            && d.problem == s.problem.(dislikes := s.problem.dislikes + 1)
            && AffinityOf(l.flags) == Liked
            && l.problem == s.problem.(likes := s.problem.likes + 1)
            && l.user.dislikedProblems == s.user.dislikedProblems
            && l.user.likedProblems == s.user.likedProblems + [pid]
  {
    WithoutAppend(s.user.dislikedProblems, [pid], pid);
    WithoutAbsent(s.user.dislikedProblems, pid);
  }

  // ---------------------------------------------------------------------------
  // The panel.

  /**
   * One panel for one problem: the two documents it talks to, its local flags and
   * the `updating` busy flag. Whether a user is signed in is a parameter of each handler.
   */
  class Panel {
    const pid: string
    var userDoc: Option<UserDoc>
    var problemDoc: Option<ProblemDoc>
    var flags: Flags
    var updating: bool

    /** The local flags agree with the user document, when there is one. */
    ghost predicate Consistent()
      reads this
    {
      userDoc.Some? ==> flags == FlagsOf(userDoc.value, pid)
    }

    /** The component mounts with every flag false and nothing in flight. */
    constructor (pid: string, userDoc: Option<UserDoc>, problemDoc: Option<ProblemDoc>)
      ensures this.pid == pid && this.userDoc == userDoc && this.problemDoc == problemDoc
      ensures flags == NoFlags && !updating
    {
      this.pid := pid;
      this.userDoc := userDoc;
      this.problemDoc := problemDoc;
      flags := NoFlags;
      updating := false;
    }

    /**
     * The loading hook: the cleanup resets every flag, then, for a signed-in user
     * whose document exists, each flag becomes membership of the id in its list.
     */
    method LoadFlags(signedIn: bool)
      modifies this`flags
      ensures flags == if signedIn && userDoc.Some? then FlagsOf(userDoc.value, pid) else NoFlags
      ensures signedIn ==> Consistent()
    {
      flags := NoFlags;
      if signedIn && userDoc.Some? {
        flags := FlagsOf(userDoc.value, pid);
      }
    }

    /**
     * Like: nothing without a user or while another intent is in flight; a
     * transaction that finds either document missing writes nothing. The busy
     * flag is raised and lowered around the transaction, so it ends as it began.
     */
    method Like(signedIn: bool)
      modifies this`userDoc, this`problemDoc, this`flags
      ensures if signedIn && !updating && old(userDoc).Some? && old(problemDoc).Some? then
                var r := LikeStep(Snapshot(old(userDoc).value, old(problemDoc).value, old(flags)), pid);
                userDoc == Some(r.user) && problemDoc == Some(r.problem) && flags == r.flags
              else
                userDoc == old(userDoc) && problemDoc == old(problemDoc) && flags == old(flags)
      ensures old(Consistent()) ==> Consistent()
      ensures !(flags.liked && flags.disliked) || flags == old(flags)
    {
      if !signedIn || updating {
        return;
      }
      if userDoc.Some? && problemDoc.Some? {
        var before := Snapshot(userDoc.value, problemDoc.value, flags);
        var r := LikeStep(before, pid);
        StepsNeverBothFlags(before, pid);
        if Consistent() {
          StepsPreserveConsistency(before, pid);
        }
        userDoc, problemDoc, flags := Some(r.user), Some(r.problem), r.flags;
      }
    }

    /** Dislike: the mirror image of Like. */
    method Dislike(signedIn: bool)
      modifies this`userDoc, this`problemDoc, this`flags
      ensures if signedIn && !updating && old(userDoc).Some? && old(problemDoc).Some? then
                var r := DislikeStep(Snapshot(old(userDoc).value, old(problemDoc).value, old(flags)), pid);
                userDoc == Some(r.user) && problemDoc == Some(r.problem) && flags == r.flags
              else
                userDoc == old(userDoc) && problemDoc == old(problemDoc) && flags == old(flags)
      ensures old(Consistent()) ==> Consistent()
      ensures !(flags.liked && flags.disliked) || flags == old(flags)
    {
      if !signedIn || updating {
        return;
      }
      if userDoc.Some? && problemDoc.Some? {
        var before := Snapshot(userDoc.value, problemDoc.value, flags);
        var r := DislikeStep(before, pid);
        StepsNeverBothFlags(before, pid);
        if Consistent() {
          StepsPreserveConsistency(before, pid);
        }
        userDoc, problemDoc, flags := Some(r.user), Some(r.problem), r.flags;
      }
    }

    /**
     * Star: a membership toggle on `starredProblems`, no counter involved. When the
     * user document is missing, `updateDoc` rejects before the busy flag is lowered,
     * so the panel is left busy and every later intent is a no-op.
     */
    method Star(signedIn: bool)
      modifies this`userDoc, this`flags, this`updating
      ensures if !signedIn || old(updating) then
                userDoc == old(userDoc) && flags == old(flags) && updating == old(updating)
              else if old(userDoc).None? then
                userDoc == old(userDoc) && flags == old(flags) && updating
              else
                var u := old(userDoc).value;
                && userDoc == Some(u.(starredProblems := Toggle(u.starredProblems, old(flags).starred, pid)))
                && flags == old(flags).(starred := !old(flags).starred)
                && !updating
      ensures old(Consistent()) ==> Consistent()
    {
      if !signedIn || updating {
        return;
      }
      updating := true;
      if userDoc.None? {
        return;
      }
      var u := userDoc.value;
      userDoc := Some(u.(starredProblems := Toggle(u.starredProblems, flags.starred, pid)));
      flags := flags.(starred := !flags.starred);
      updating := false;
    }

    /**
     * Solve: removes the id when either the local flag or the parent's `_solved`
     * says solved, otherwise adds it. Returns the parent's `_solved` afterwards,
     * which the remove branch clears.
     */
    method Solve(signedIn: bool, solvedProp: bool) returns (solvedPropAfter: bool)
      modifies this`userDoc, this`flags, this`updating
      ensures if !signedIn || old(updating) then
                userDoc == old(userDoc) && flags == old(flags) && updating == old(updating)
                && solvedPropAfter == solvedProp
              else if old(userDoc).None? then
                userDoc == old(userDoc) && flags == old(flags) && updating
                && solvedPropAfter == solvedProp
              else
                var u := old(userDoc).value;
                var wasSolved := old(flags).solved || solvedProp;
                && userDoc == Some(u.(solvedProblems := Toggle(u.solvedProblems, wasSolved, pid)))
                && flags == old(flags).(solved := !wasSolved)
                && !updating && !solvedPropAfter
      ensures old(Consistent()) ==> Consistent()
    {
      solvedPropAfter := solvedProp;
      if !signedIn || updating {
        return;
      }
      updating := true;
      if userDoc.None? {
        return;
      }
      var u := userDoc.value;
      var wasSolved := flags.solved || solvedProp;
      userDoc := Some(u.(solvedProblems := Toggle(u.solvedProblems, wasSolved, pid)));
      flags := flags.(solved := !wasSolved);
      if wasSolved {
        solvedPropAfter := false;
      }
      updating := false;
    }
  }

  /** Dislike then Like on a fresh account, driven through the panel. */
  method DislikeThenLikeOnPanel(pid: string, likes: int, dislikes: int)
  {
    var panel := new Panel(pid, Some(NewUserDoc()), Some(ProblemDoc(likes, dislikes)));
    panel.LoadFlags(true);
    assert panel.flags == NoFlags;
    panel.Dislike(true);
    assert panel.flags.disliked && !panel.flags.liked;
    assert panel.problemDoc == Some(ProblemDoc(likes, dislikes + 1));
    panel.Like(true);
    assert panel.flags.liked && !panel.flags.disliked;
    assert panel.problemDoc == Some(ProblemDoc(likes + 1, dislikes));
    assert panel.userDoc.value.likedProblems == [pid];
    assert panel.userDoc.value.dislikedProblems == [];
  }
}
