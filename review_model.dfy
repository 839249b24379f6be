/** The review document: the schema bounds on rating, title and content,
    the `helpful` and `flagged` user sets with counts kept equal to their
    lengths, and the `reviewAge` label. */
module ReviewModel {
  import opened Types
  import Text

  // ---------------------------------------------------------------------
  // Schema bounds

  /** `rating` is required within 1..5 (any number, not only integers);
      `title` and `content` are trimmed, required, and at most 100 and 2000
      characters long. */
  function ValidateReview(rating: real, title: string, content: string): (r: Result<(string, string)>)
    ensures r.Ok? <==>
              1.0 <= rating <= 5.0
              && Text.Trim(title) != [] && |Text.Trim(title)| <= 100
              && Text.Trim(content) != [] && |Text.Trim(content)| <= 2000
    ensures r.Ok? ==> r.value == (Text.Trim(title), Text.Trim(content))
    ensures r.Err? ==> r.failure == ValidationFailed
  {
    var t := Text.Trim(title);
    var c := Text.Trim(content);
    if rating < 1.0 || rating > 5.0 || t == [] || |t| > 100 || c == [] || |c| > 2000
    then Err(ValidationFailed)
    else Ok((t, c))
  }

  /** Surrounding whitespace never decides whether a review is accepted, and a stored title
      or content is stable under a second save. */
  lemma ValidateReviewStable(rating: real, title: string, content: string)
    requires ValidateReview(rating, title, content).Ok?
    ensures ValidateReview(rating, ValidateReview(rating, title, content).value.0,
                           ValidateReview(rating, title, content).value.1)
            == ValidateReview(rating, title, content)
  {
    Text.TrimIdempotent(title);
    Text.TrimIdempotent(content);
  }

  // ---------------------------------------------------------------------
  // User sets

  predicate NoDuplicates(users: seq<UserId>) {
    forall i, j :: 0 <= i < j < |users| ==> users[i] != users[j]
  }

  /** `if (!users.includes(u)) users.push(u)` */
  function AddUnique(users: seq<UserId>, u: UserId): (r: seq<UserId>)
    ensures u in r
    ensures forall x :: x in r <==> x in users || x == u
    ensures u in users ==> r == users
    ensures u !in users ==> r == users + [u]
  {
    if u in users then users else users + [u]
  }

  /** `users.filter(id => !id.equals(u))` */
  function Without(users: seq<UserId>, u: UserId): (r: seq<UserId>)
    ensures u !in r
    ensures forall x :: x in r <==> x in users && x != u
    ensures |r| <= |users|
  {
    if users == [] then []
    else (if users[0] == u then [] else [users[0]]) + Without(users[1..], u)
  }

  lemma AddUniqueKeepsNoDuplicates(users: seq<UserId>, u: UserId)
    requires NoDuplicates(users)
    ensures NoDuplicates(AddUnique(users, u))
  {
  }

  lemma {:induction false} WithoutKeepsNoDuplicates(users: seq<UserId>, u: UserId)
    requires NoDuplicates(users)
    ensures NoDuplicates(Without(users, u))
  {
    if users != [] {
      WithoutKeepsNoDuplicates(users[1..], u);
      var rest := Without(users[1..], u);
      if users[0] != u {
        assert users[0] !in users[1..];
        var r := [users[0]] + rest;
        forall i, j | 0 <= i < j < |r| ensures r[i] != r[j] {
          if i == 0 {
            assert r[j] in rest;
          } else {
            assert r[i] == rest[i - 1] && r[j] == rest[j - 1];
          }
        }
      }
    }
  }

  /** Removing a user that is absent changes nothing. */
  lemma {:induction false} WithoutAbsent(users: seq<UserId>, u: UserId)
    requires u !in users
    ensures Without(users, u) == users
  {
    if users != [] {
      WithoutAbsent(users[1..], u);
    }
  }

  /** A duplicate-free list with the user removed is one shorter exactly
      when the user was in it. */
  lemma {:induction false} WithoutLength(users: seq<UserId>, u: UserId)
    requires NoDuplicates(users)
    ensures |Without(users, u)| == if u in users then |users| - 1 else |users|
  {
    if users != [] {
      WithoutLength(users[1..], u);
      if users[0] == u {
        assert u !in users[1..];
      } else {
        assert u in users <==> u in users[1..];
      }
    }
  }

  /** Marking and then unmarking as helpful leaves exactly the other users:
      a mark by someone not yet marked is undone entirely. */
  lemma {:induction false} MarkThenRemove(users: seq<UserId>, u: UserId)
    ensures Without(AddUnique(users, u), u) == Without(users, u)
    ensures u !in users ==> Without(AddUnique(users, u), u) == users
  {
    WithoutAppend(users, u);
    if u !in users {
      WithoutAbsent(users, u);
    }
  }

  lemma {:induction false} WithoutAppend(users: seq<UserId>, u: UserId)
    ensures Without(users + [u], u) == Without(users, u)
  {
    if users == [] {
      assert Without([u], u) == [] + Without([], u);
    } else {
      assert (users + [u])[1..] == users[1..] + [u];
      WithoutAppend(users[1..], u);
    }
  }

  // ---------------------------------------------------------------------
  // The document

  datatype ReviewStatus = Pending | Approved | Rejected | Hidden

  class Review {
    var rating: real
    var title: string
    var content: string
    var status: ReviewStatus
    var helpfulCount: int
    var helpfulUsers: seq<UserId>
    var flaggedCount: int
    var flaggedUsers: seq<UserId>
    var flaggedReasons: seq<string>

    /** The counts equal the lengths, the user lists are sets, and every
        flag has its reason at the same position. */
    ghost predicate Valid()
      reads this
    {
      helpfulCount == |helpfulUsers| && NoDuplicates(helpfulUsers)
      && flaggedCount == |flaggedUsers| && NoDuplicates(flaggedUsers)
      && |flaggedReasons| == |flaggedUsers|
    }

    /** A new review with the schema defaults. */
    constructor (rating: real, title: string, content: string)
      requires ValidateReview(rating, title, content).Ok?
      ensures Valid()
      ensures this.rating == rating && status == Pending
      ensures (this.title, this.content) == ValidateReview(rating, title, content).value
      ensures helpfulUsers == [] && flaggedUsers == [] && flaggedReasons == []
    {
      this.rating := rating;
      this.title := Text.Trim(title);
      this.content := Text.Trim(content);
      status := Pending;
      helpfulCount := 0;
      helpfulUsers := [];
      flaggedCount := 0;
      flaggedUsers := [];
      flaggedReasons := [];
    }

    /** `markHelpful`: repeat calls by the same user change nothing. */
    method MarkHelpful(u: UserId)
      requires Valid()
      modifies this
      ensures Valid()
      ensures helpfulUsers == AddUnique(old(helpfulUsers), u)
      ensures helpfulCount == |helpfulUsers|
      ensures u in old(helpfulUsers) ==> helpfulCount == old(helpfulCount)
      ensures flaggedUsers == old(flaggedUsers) && flaggedReasons == old(flaggedReasons)
      ensures flaggedCount == old(flaggedCount)
      ensures rating == old(rating) && title == old(title) && content == old(content) && status == old(status)
    {
      if u !in helpfulUsers {
        helpfulUsers := helpfulUsers + [u];
        helpfulCount := |helpfulUsers|;
      }
    }

    /** `removeHelpful`: every occurrence goes and the count is reset to the
        length. */
    method RemoveHelpful(u: UserId)
      requires Valid()
      modifies this
      ensures Valid()
      ensures helpfulUsers == Without(old(helpfulUsers), u)
      ensures helpfulCount == |helpfulUsers|
      ensures helpfulCount == if u in old(helpfulUsers) then old(helpfulCount) - 1 else old(helpfulCount)
      ensures flaggedUsers == old(flaggedUsers) && flaggedReasons == old(flaggedReasons)
      ensures flaggedCount == old(flaggedCount)
      ensures rating == old(rating) && title == old(title) && content == old(content) && status == old(status)
    {
      WithoutKeepsNoDuplicates(helpfulUsers, u);
      WithoutLength(helpfulUsers, u);
      helpfulUsers := Without(helpfulUsers, u);
      helpfulCount := |helpfulUsers|;
    }

    /** `flagReview`: the user and the reason are appended together, once
        per user. */
    method FlagReview(u: UserId, reason: string)
      requires Valid()
      modifies this
      ensures Valid()
      ensures flaggedUsers == AddUnique(old(flaggedUsers), u)
      ensures u in old(flaggedUsers) ==> flaggedReasons == old(flaggedReasons) && flaggedCount == old(flaggedCount)
      ensures u !in old(flaggedUsers) ==> flaggedReasons == old(flaggedReasons) + [reason]
      ensures flaggedCount == |flaggedUsers|
      ensures forall i :: 0 <= i < |flaggedUsers| && flaggedUsers[i] == u ==>
                (flaggedReasons[i] == if u in old(flaggedUsers) then old(flaggedReasons)[i] else reason)
      ensures helpfulUsers == old(helpfulUsers) && helpfulCount == old(helpfulCount)
      ensures rating == old(rating) && title == old(title) && content == old(content) && status == old(status)
    {
      if u !in flaggedUsers {
        flaggedUsers := flaggedUsers + [u];
        flaggedReasons := flaggedReasons + [reason];
        flaggedCount := |flaggedUsers|;
      }
    }
  }

  // ---------------------------------------------------------------------
  // reviewAge

  datatype AgeUnit = Days | Months | Years

  /** The amount and unit `reviewAge` reports for a whole number of days. */
  function AgeOf(days: nat): (a: (nat, AgeUnit))
    ensures a.1 == Days <==> days < 30
    ensures a.1 == Days ==> a.0 == days
    ensures a.1 == Months <==> 30 <= days < 365
    ensures a.1 == Months ==> 1 <= a.0 <= 12 && a.0 * 30 <= days < a.0 * 30 + 30
    ensures a.1 == Years ==> a.0 >= 1 && a.0 * 365 <= days < a.0 * 365 + 365
  {
    if days < 30 then (days, Days)
    else if days < 365 then (days / 30, Months)
    else (days / 365, Years)
  }

  function UnitWord(u: AgeUnit, amount: nat): string {
    match u
    case Days => if amount == 1 then "day" else "days"
    case Months => if amount == 1 then "month" else "months"
    case Years => if amount == 1 then "year" else "years"
  }

  /** The `reviewAge` virtual for a day count. */
  function ReviewAge(days: nat): string {
    var a := AgeOf(days);
    Text.NatToString(a.0) + " " + UnitWord(a.1, a.0) + " ago"
  }

  /** The label starts with the amount in decimal, which reads back as the
      amount, and uses the singular exactly for an amount of 1. */
  lemma ReviewAgeReadsBack(days: nat)
    ensures var a := AgeOf(days);
            var digits := Text.NatToString(a.0);
            |digits| < |ReviewAge(days)| && ReviewAge(days)[..|digits|] == digits
            && Text.ParseNat(digits) == a.0 && ReviewAge(days)[|digits|] == ' '
  {
    var a := AgeOf(days);
    Text.NatToStringRoundTrip(a.0);
  }

  /** The day branches: "1 day ago", and "N days ago" below 30 days. */
  lemma ReviewAgeDayExamples()
    ensures ReviewAge(1) == "1 day ago"
    ensures ReviewAge(0) == "0 days ago"
  {
  }

  /** Whole months below a year, whole years beyond. */
  lemma ReviewAgeLongerExamples()
    ensures ReviewAge(45) == "1 month ago"
    ensures ReviewAge(364) == "12 months ago"
    ensures ReviewAge(730) == "2 years ago"
  {
    assert AgeOf(45) == (1, Months);
    assert AgeOf(364) == (12, Months);
    assert AgeOf(730) == (2, Years);
    assert Text.NatToString(12) == "12";
  }
}
