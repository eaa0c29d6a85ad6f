/** frontend/src/pages/Feedback.tsx: the feedback form. `feedbackSchema` validates the four
    fields on their trimmed values; `handleSubmit` inserts one row whose message carries the
    rating, then clears the form on success; the stars fill up to the hovered or chosen one. */
module Feedback {
  import opened Wire
  import opened Strings

  /** The form's four fields as the page holds them. */
  datatype Form = Form(name: string, email: string, message: string, rating: int)

  /** The schema's checks, in the order zod reports them: field by field, each field's
      checks in declaration order. */
  datatype Issue =
    | NameRequired | NameTooLong
    | InvalidEmail | EmailTooLong
    | MessageTooShort | MessageTooLong
    | RatingMissing | RatingTooHigh

  predicate NameOk(name: string) { 1 <= |Trim(name)| <= 100 }

  /** `isEmail` is zod's e-mail pattern, applied to the trimmed text. */
  predicate EmailOk(email: string, isEmail: string -> bool) { isEmail(Trim(email)) && |Trim(email)| <= 255 }

  predicate MessageOk(message: string) { 10 <= |Trim(message)| <= 1000 }

  predicate RatingOk(rating: int) { 1 <= rating <= 5 }

  predicate Valid(f: Form, isEmail: string -> bool) {
    NameOk(f.name) && EmailOk(f.email, isEmail) && MessageOk(f.message) && RatingOk(f.rating)
  }

  /** `error.errors[0]` of `feedbackSchema.parse`, or None when the form passes. */
  function FirstIssue(f: Form, isEmail: string -> bool): (issue: Option<Issue>)
    ensures issue.None? <==> Valid(f, isEmail)
    // An earlier field's failure is reported before a later one's.
    ensures !NameOk(f.name) ==> issue.Some? && issue.value in {NameRequired, NameTooLong}
    ensures NameOk(f.name) && !EmailOk(f.email, isEmail) ==> issue.Some? && issue.value in {InvalidEmail, EmailTooLong}
    ensures NameOk(f.name) && EmailOk(f.email, isEmail) && !MessageOk(f.message) ==>
      issue.Some? && issue.value in {MessageTooShort, MessageTooLong}
    ensures NameOk(f.name) && EmailOk(f.email, isEmail) && MessageOk(f.message) && !RatingOk(f.rating) ==>
      issue.Some? && issue.value in {RatingMissing, RatingTooHigh}
    // Within a field, zod's checks run in declaration order: the first failing one is reported.
    ensures |Trim(f.name)| < 1 ==> issue == Some(NameRequired)
    ensures |Trim(f.name)| > 100 ==> issue == Some(NameTooLong)
    ensures NameOk(f.name) && !isEmail(Trim(f.email)) ==> issue == Some(InvalidEmail)
    ensures NameOk(f.name) && isEmail(Trim(f.email)) && |Trim(f.email)| > 255 ==> issue == Some(EmailTooLong)
    ensures NameOk(f.name) && EmailOk(f.email, isEmail) && |Trim(f.message)| < 10 ==> issue == Some(MessageTooShort)
    ensures NameOk(f.name) && EmailOk(f.email, isEmail) && |Trim(f.message)| > 1000 ==> issue == Some(MessageTooLong)
    // A rating of 0, the page's initial value, is reported as missing, and only a rating below 1 is.
    ensures NameOk(f.name) && EmailOk(f.email, isEmail) && MessageOk(f.message) && f.rating < 1 ==>
      issue == Some(RatingMissing)
    ensures NameOk(f.name) && EmailOk(f.email, isEmail) && MessageOk(f.message) && f.rating > 5 ==>
      issue == Some(RatingTooHigh)
    ensures issue == Some(RatingMissing) ==> f.rating < 1
  {
    var name, email, message := Trim(f.name), Trim(f.email), Trim(f.message);
    if |name| < 1 then Some(NameRequired)
    else if |name| > 100 then Some(NameTooLong)
    else if !isEmail(email) then Some(InvalidEmail)
    else if |email| > 255 then Some(EmailTooLong)
    else if |message| < 10 then Some(MessageTooShort)
    else if |message| > 1000 then Some(MessageTooLong)
    else if f.rating < 1 then Some(RatingMissing)
    else if f.rating > 5 then Some(RatingTooHigh)
    else None
  }

  /** The messages the schema gives its checks; the others use zod's default text. */
  function IssueMessage(issue: Issue): (m: Option<string>)
    ensures m.Some? <==> issue in {NameRequired, InvalidEmail, MessageTooShort, RatingMissing}
  {
    match issue
    case NameRequired => Some("Name is required")
    case InvalidEmail => Some("Invalid email address")
    case MessageTooShort => Some("Message must be at least 10 characters")
    case RatingMissing => Some("Please provide a rating")
    case _ => None
  }

  /** The stored message: `Rating: ${rating}/5\n\n${message.trim()}`. */
  function ComposeMessage(rating: int, message: string): string {
    "Rating: " + IntToString(rating) + "/5\n\n" + Trim(message)
  }

  /** Reading a stored one-digit-rating message back: the rating and the text. */
  function ParseStored(stored: string): Option<(int, string)> {
    if |stored| >= 13 && stored[..8] == "Rating: " && stored[9..13] == "/5\n\n" && ParseInt(stored[8..9]).Some? then
      Some((ParseInt(stored[8..9]).value, stored[13..]))
    else None
  }

  /** For every rating the schema accepts, the stored message gives back the rating and the
      trimmed text. */
  lemma ComposeRoundTrip(rating: int, message: string)
    requires RatingOk(rating)
    ensures ParseStored(ComposeMessage(rating, message)) == Some((rating, Trim(message)))
  {
    var s := ComposeMessage(rating, message);
    var digits := IntToString(rating);
    assert digits == [DigitChar(rating)];
    assert s[..8] == "Rating: ";
    assert s[8..9] == digits;
    assert s[9..13] == "/5\n\n";
    assert s[13..] == Trim(message);
    IntToStringRoundTrip(rating);
  }

  /** Star `star` is drawn filled: `star <= (hoveredStar || rating)`. */
  predicate StarFilled(star: int, hovered: int, rating: int) {
    star <= (if hovered != 0 then hovered else rating)
  }

  /** How many of the stars 1..n are filled. */
  function FilledCount(n: nat, hovered: int, rating: int): (c: nat)
    ensures c <= n
  {
    if n == 0 then 0 else FilledCount(n - 1, hovered, rating) + (if StarFilled(n, hovered, rating) then 1 else 0)
  }

  /** The filled stars are a prefix: the first k of the five, k being the hovered star
      (or, when none is hovered, the rating) clamped into 0..5. */
  lemma {:induction false} FilledStarsArePrefix(n: nat, hovered: int, rating: int)
    ensures var shown := if hovered != 0 then hovered else rating;
      FilledCount(n, hovered, rating) == (if shown < 0 then 0 else if shown > n then n else shown)
  {
    if n > 0 {
      FilledStarsArePrefix(n - 1, hovered, rating);
    }
  }

  /** One row of the `feedback` table. */
  datatype FeedbackRow = FeedbackRow(userId: Option<string>, name: string, email: string, message: string)

  /** `session?.user.id || null`: the signed-in user's id, null without a session. */
  function UserIdOf(session: Option<string>): (id: Option<string>)
    ensures session.None? ==> id.None?
    ensures id.Some? ==> session == id && id.value != ""
    ensures session.Some? && session.value != "" ==> id == session
  {
    if session.Some? && session.value != "" then session else None
  }

  /** The row `handleSubmit` inserts for a valid form. */
  function RowFor(f: Form, session: Option<string>): (row: FeedbackRow)
    ensures row.userId == UserIdOf(session)
    ensures row.name == Trim(f.name) && row.email == Trim(f.email)
    ensures row.message == ComposeMessage(f.rating, f.message)
  {
    FeedbackRow(UserIdOf(session), Trim(f.name), Trim(f.email), ComposeMessage(f.rating, f.message))
  }

  /** The page's state. */
  class FeedbackPage {
    var loading: bool
    var name: string
    var email: string
    var message: string
    var rating: int
    var hoveredStar: int
    /** Rows inserted into the `feedback` table, oldest first. */
    var inserted: seq<FeedbackRow>

    constructor ()
      ensures !loading && name == "" && email == "" && message == "" && rating == 0 && hoveredStar == 0
      ensures inserted == []
    {
      loading, name, email, message, rating, hoveredStar := false, "", "", "", 0, 0;
      inserted := [];
    }

    /** The four fields as a form. */
    function Fields(): Form
      reads this
    {
      Form(name, email, message, rating)
    }

    /** The submit button is disabled while submitting and while no star is chosen. */
    function SubmitEnabled(): (enabled: bool)
      reads this
      ensures enabled <==> !loading && rating != 0
    {
      !loading && rating != 0
    }

    /** `handleSubmit`. `session` is the signed-in user's id, `insertError` whether the insert
      reported an error. An invalid form changes nothing and inserts nothing. */
    method HandleSubmit(session: Option<string>, insertError: bool, isEmail: string -> bool)
      returns (issue: Option<Issue>)
      modifies this
      ensures issue == FirstIssue(old(Fields()), isEmail)
      ensures hoveredStar == old(hoveredStar)
      ensures issue.Some? ==>
        loading == old(loading) && Fields() == old(Fields()) && inserted == old(inserted)
      // A valid form is inserted, or not, and the flag is down once the insert returns.
      ensures issue.None? ==> !loading
      ensures issue.None? && !insertError ==>
        inserted == old(inserted) + [RowFor(old(Fields()), session)] && Fields() == Form("", "", "", 0)
      ensures issue.None? && insertError ==> inserted == old(inserted) && Fields() == old(Fields())
      // After a failed insert the kept, valid form can be sent again; after a success the
      // cleared rating disables the button until a star is chosen.
      ensures issue.None? && insertError ==> SubmitEnabled()
      ensures issue.None? && !insertError ==> !SubmitEnabled()
    {
      var form := Fields();
      issue := FirstIssue(form, isEmail);
      if issue.Some? {
        return;
      }
      assert RatingOk(form.rating);
      loading := true;
      var row := RowFor(form, session);
      loading := false;
      if !insertError {
        inserted := inserted + [row];
        name, email, message, rating := "", "", "", 0;
      }
    }
  }
}
