/**
 * The team-status form (`src/components/modals/UpdateStatusModal.tsx`): what a
 * press of "Update" does with the typed email and the new status. The toast and
 * the mutation are side effects; here they are the two kinds of `Outcome`.
 */
module UpdateStatus {
  import opened Text

  const InvalidEmailMessage: string := "Invalid email address"
  const TooManyWordsMessage: string := "Status must be 20 words or less"

  /** The largest number of " "-separated pieces a status may have. */
  const MaxWords: nat := 20

  /** The body of the update mutation: `{ email, team_status }`. */
  datatype StatusUpdate = StatusUpdate(email: string, teamStatus: string)

  /** An error toast with its description, or exactly one mutation issued. */
  datatype Outcome = Rejected(description: string) | Mutate(request: StatusUpdate)

  /**
   * The typed email starts empty. The modal stays mounted for the whole page,
   * so both inputs are initialised once, at mount, when the `email` and
   * `currentStatus` props are still ""; opening the modal later for another
   * participant does not reset what was typed.
   */
  const InitialInputEmail: string := ""

  /**
   * `handleStatusUpdate`: the email check first, then the word count
   * (`newStatus.split(" ").length > 20`), then the mutation with the prop email.
   */
  function HandleStatusUpdate(inputEmail: string, email: string, newStatus: string): (o: Outcome)
    ensures inputEmail != email ==> o == Rejected(InvalidEmailMessage)
    ensures o.Mutate? <==> inputEmail == email && Count(newStatus, ' ') < MaxWords
    ensures o.Mutate? ==> o.request == StatusUpdate(email, newStatus)
    ensures o.Rejected? ==> o.description in {InvalidEmailMessage, TooManyWordsMessage}
  {
    SplitLength(newStatus, ' ');
    if inputEmail != email then Rejected(InvalidEmailMessage)
    else if |Split(newStatus, ' ')| > MaxWords then Rejected(TooManyWordsMessage)
    else Mutate(StatusUpdate(email, newStatus))
  }

  /**
   * A status is refused for length exactly when the email matches and it holds
   * twenty or more spaces; repeated spaces count, since they make empty pieces.
   */
  lemma TooManyWordsIff(inputEmail: string, email: string, newStatus: string)
    ensures HandleStatusUpdate(inputEmail, email, newStatus) == Rejected(TooManyWordsMessage)
      <==> inputEmail == email && Count(newStatus, ' ') >= MaxWords
  {
    assert InvalidEmailMessage != TooManyWordsMessage by {
      assert InvalidEmailMessage[0] != TooManyWordsMessage[0];
    }
  }

  /** A status made of exactly twenty space-free words joined by single spaces is accepted. */
  lemma {:induction false} TwentyWordsAccepted(email: string, words: seq<string>)
    requires |words| == MaxWords
    requires forall k :: 0 <= k < |words| ==> ' ' !in words[k]
    ensures HandleStatusUpdate(email, email, Join(words, ' ')) == Mutate(StatusUpdate(email, Join(words, ' ')))
  {
    SplitJoin(words, ' ');
    SplitLength(Join(words, ' '), ' ');
  }

  /**
   * With an empty `email` prop, the untouched (empty) email field passes the
   * check: a participant stored with an empty email can have their status
   * changed by anyone, without typing any email at all.
   */
  lemma DefaultEmailPasses(newStatus: string)
    ensures HandleStatusUpdate(InitialInputEmail, "", newStatus) != Rejected(InvalidEmailMessage)
  {
    SplitLength(newStatus, ' ');
    assert InvalidEmailMessage != TooManyWordsMessage by {
      assert InvalidEmailMessage[0] != TooManyWordsMessage[0];
    }
  }
}
