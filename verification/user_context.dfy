/** User mode of the context fetcher: a user's newest comments, then their
    newest submissions, each rendered with its subreddit, capped and joined. */
module UserContext {
  import opened Wrappers
  import opened PyText
  import opened Variants

  /** A comment from the user's history and the subreddit it was posted in. */
  datatype Comment = Comment(subreddit: string, body: string)

  /** A submission from the user's history. */
  datatype Submission = Submission(subreddit: string, title: string, selftext: string)

  /** `fetch_user_context`'s default `limit` on the comment listing. */
  const DefaultCommentLimit: nat := 30
  /** The fixed limit on the submission listing. */
  const SubmissionLimit: nat := 10
  /** How much of a comment body is shown. */
  const CommentBodyChars: nat := 300
  /** How much of a submission's selftext is shown. */
  const SelftextChars: nat := 200
  /** How many rendered items the context keeps. */
  const RenderedItemCap: nat := 20

  const ItemSeparator := "\n\n"
  const SelftextSeparator := " - "
  const FetchErrorPrefix := "Error fetching user: "

  /** `[r/<subreddit>] `, the tag in front of every item. */
  function SubredditTag(subreddit: string): (r: string)
    ensures |r| == |subreddit| + 5
  {
    "[r/" + subreddit + "] "
  }

  /** What stands between the tag and a submission's title: bot.py writes
      "Title: ", cli.py nothing. */
  function SubmissionLabel(fe: Frontend): string {
    match fe
    case DiscordBot => "Title: "
    case CommandLine => ""
  }

  /** A comment: its subreddit tag and the first 300 characters of its body. */
  function RenderComment(c: Comment): (r: string)
    ensures |r| == |SubredditTag(c.subreddit)| + Min(|c.body|, CommentBodyChars)
    ensures StartsWith(r, SubredditTag(c.subreddit))
    ensures r[|SubredditTag(c.subreddit)|..] == c.body[..Min(|c.body|, CommentBodyChars)]
  {
    var tag := SubredditTag(c.subreddit);
    var r := tag + Take(c.body, CommentBodyChars);
    assert r[..|tag|] == tag;
    r
  }

  /** The part of a rendered submission before its optional selftext. */
  function SubmissionHead(fe: Frontend, s: Submission): string {
    SubredditTag(s.subreddit) + SubmissionLabel(fe) + s.title
  }

  /** A submission: its tag, label and title, followed by " - " and the
      first 200 characters of its selftext when the selftext is non-empty
      (see `SubmissionSuffix`). */
  function RenderSubmission(fe: Frontend, s: Submission): string {
    var head := SubmissionHead(fe, s);
    if s.selftext == "" then head
    else head + SelftextSeparator + Take(s.selftext, SelftextChars)
  }

  function RenderComments(cs: seq<Comment>): (r: seq<string>)
    ensures |r| == |cs|
    ensures forall i :: 0 <= i < |r| ==> r[i] == RenderComment(cs[i])
  {
    if |cs| == 0 then [] else [RenderComment(cs[0])] + RenderComments(cs[1..])
  }

  function RenderSubmissions(fe: Frontend, ss: seq<Submission>): (r: seq<string>)
    ensures |r| == |ss|
    ensures forall i :: 0 <= i < |r| ==> r[i] == RenderSubmission(fe, ss[i])
  {
    if |ss| == 0 then [] else [RenderSubmission(fe, ss[0])] + RenderSubmissions(fe, ss[1..])
  }

  /** The rendered items: the first `limit` comments, then the first 10
      submissions, of which the first 20 items survive. */
  function UserItems(fe: Frontend, comments: seq<Comment>, submissions: seq<Submission>, limit: nat)
    : (r: seq<string>)
    ensures |r| == Min(RenderedItemCap, Min(limit, |comments|) + Min(SubmissionLimit, |submissions|))
  {
    Take(RenderComments(Take(comments, limit)) + RenderSubmissions(fe, Take(submissions, SubmissionLimit)),
         RenderedItemCap)
  }

  /** The context string both front ends build from a user's history. */
  function Context(fe: Frontend, comments: seq<Comment>, submissions: seq<Submission>, limit: nat): string {
    Join(UserItems(fe, comments, submissions, limit), ItemSeparator)
  }

  /** bot.py's `fetch_user_context`: the comment listing is fetched first,
      then the submissions; whichever fails first turns the whole context
      into an error string. */
  function FetchContext(comments: Result<seq<Comment>>, submissions: Result<seq<Submission>>, limit: nat)
    : (r: string)
    ensures comments.Failure? ==> r == FetchErrorPrefix + comments.message
    ensures comments.Ok? && submissions.Failure? ==> r == FetchErrorPrefix + submissions.message
    ensures comments.Ok? && submissions.Ok? ==>
              r == Join(UserItems(DiscordBot, comments.value, submissions.value, limit), ItemSeparator)
  {
    match comments
    case Failure(msg) => FetchErrorPrefix + msg
    case Ok(cs) =>
      match submissions
      case Failure(msg) => FetchErrorPrefix + msg
      case Ok(ss) => Context(DiscordBot, cs, ss, limit)
  }

  // ---------------------------------------------------------------------
  // Lemmas
  // ---------------------------------------------------------------------

  /** The items start with the user's comments, in order: every comment
      item comes before every submission item. */
  lemma CommentsFirst(fe: Frontend, comments: seq<Comment>, submissions: seq<Submission>, limit: nat)
    ensures var r := UserItems(fe, comments, submissions, limit);
            forall i :: 0 <= i < |r| && i < Min(limit, |comments|) ==> r[i] == RenderComment(comments[i])
  {
    var tc := Take(comments, limit);
    var all := RenderComments(tc) + RenderSubmissions(fe, Take(submissions, SubmissionLimit));
    assert forall i :: 0 <= i < |tc| ==> all[i] == RenderComment(tc[i]);
  }

  /** After the comments come the user's submissions, in order, for as
      long as the cap of 20 items allows. */
  lemma SubmissionsAfter(fe: Frontend, comments: seq<Comment>, submissions: seq<Submission>, limit: nat)
    ensures var r := UserItems(fe, comments, submissions, limit);
            var nc := Min(limit, |comments|);
            forall j :: 0 <= j < |r| - nc ==> r[nc + j] == RenderSubmission(fe, submissions[j])
  {
    var tc := Take(comments, limit);
    var ts := Take(submissions, SubmissionLimit);
    var rs := RenderSubmissions(fe, ts);
    var all := RenderComments(tc) + rs;
    var r := UserItems(fe, comments, submissions, limit);
    assert r == all[..|r|];
    forall j | 0 <= j < |r| - |tc|
      ensures r[|tc| + j] == RenderSubmission(fe, submissions[j])
    {
      assert r[|tc| + j] == all[|tc| + j] == rs[j];
      assert ts[j] == submissions[j];
    }
  }

  /** Submissions appear in the context exactly when fewer than 20 comments
      were taken and the user has submitted something. */
  lemma SubmissionsShownIff(fe: Frontend, comments: seq<Comment>, submissions: seq<Submission>, limit: nat)
    ensures |UserItems(fe, comments, submissions, limit)| > Min(limit, |comments|)
        <==> Min(limit, |comments|) < RenderedItemCap && |submissions| > 0
  {
  }

  /** A rendered submission starts with its head; the " - " suffix is
      there exactly when the selftext is non-empty and carries the first
      200 characters of it. */
  lemma SubmissionSuffix(fe: Frontend, s: Submission)
    ensures |RenderSubmission(fe, s)|
            == |SubmissionHead(fe, s)| + (if s.selftext == "" then 0 else |SelftextSeparator| + Min(|s.selftext|, SelftextChars))
    ensures StartsWith(RenderSubmission(fe, s), SubmissionHead(fe, s))
    ensures RenderSubmission(fe, s) == SubmissionHead(fe, s) <==> s.selftext == ""
    ensures s.selftext != "" ==>
              RenderSubmission(fe, s)[|SubmissionHead(fe, s)|..]
              == SelftextSeparator + s.selftext[..Min(|s.selftext|, SelftextChars)]
  {
    var head := SubmissionHead(fe, s);
    var r := RenderSubmission(fe, s);
    assert r[..|head|] == head;
    if s.selftext != "" {
      assert r[|head|..] == SelftextSeparator + Take(s.selftext, SelftextChars);
    }
  }

  /** A user with at least 20 comments under the limit fills the context
      with comments alone: the 20th item is still a comment. */
  lemma CommentsFillContext(fe: Frontend, comments: seq<Comment>, submissions: seq<Submission>, limit: nat)
    requires limit >= RenderedItemCap && |comments| >= RenderedItemCap
    ensures UserItems(fe, comments, submissions, limit) == RenderComments(comments[..RenderedItemCap])
  {
    var r := UserItems(fe, comments, submissions, limit);
    var expected := RenderComments(comments[..RenderedItemCap]);
    assert |r| == RenderedItemCap == |expected|;
    forall i | 0 <= i < RenderedItemCap
      ensures r[i] == expected[i]
    {
      assert r[i] == RenderComment(comments[i]);
    }
  }
}
