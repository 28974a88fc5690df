/** The command-line front end: the same target parsing, its own context
    rendering and prompt, and the TITLE/BODY parser applied to the
    completion. Unlike the bot it wraps no errors: a failed fetch or
    completion ends the run with that failure. */
module Cli {
  import opened Wrappers
  import opened PyText
  import opened Variants
  import opened Targets
  import opened Synthesis
  import opened Sources
  import opened ResponseParser
  import opened ParserLemmas
  import SubredditContext
  import UserContext

  /** The context cli.py fetches for a target: the rendered listing, or
      the first failure; the user's comments are fetched before the
      submissions. */
  function CliContext(t: Target, reddit: Reddit): (r: Result<string>)
    ensures t.Subreddit? ==>
              (r.Ok? <==> reddit.hot(t.name).Ok?)
              && (r.Ok? ==> r.value == SubredditContext.Context(CommandLine, reddit.hot(t.name).value, SubredditContext.DefaultPostLimit))
              && (r.Failure? ==> r.message == reddit.hot(t.name).message)
    ensures t.User? ==>
              (r.Ok? <==> reddit.comments(t.name).Ok? && reddit.submissions(t.name).Ok?)
              && (reddit.comments(t.name).Failure? ==> r == Failure(reddit.comments(t.name).message))
              && (reddit.comments(t.name).Ok? && reddit.submissions(t.name).Failure? ==>
                    r == Failure(reddit.submissions(t.name).message))
              && (r.Ok? ==> r.value == UserContext.Context(CommandLine, reddit.comments(t.name).value,
                                                          reddit.submissions(t.name).value, UserContext.DefaultCommentLimit))
  {
    match t
    case Subreddit(name) =>
      (match reddit.hot(name)
       case Failure(msg) => Failure(msg)
       case Ok(listing) => Ok(SubredditContext.Context(CommandLine, listing, SubredditContext.DefaultPostLimit)))
    case User(name) =>
      (match reddit.comments(name)
       case Failure(msg) => Failure(msg)
       case Ok(cs) =>
         match reddit.submissions(name)
         case Failure(msg) => Failure(msg)
         case Ok(ss) => Ok(UserContext.Context(CommandLine, cs, ss, UserContext.DefaultCommentLimit)))
  }

  /** `generate_post`: prompt the model with the command line's prompt and
      parse what comes back. */
  function GeneratePost(t: Target, context: string, model: Model): (r: Result<GeneratedPost>)
    ensures r.Ok? <==> model(UserPrompt(CommandLine, t, context)).Ok?
    ensures r.Ok? ==> r.value == Parse(model(UserPrompt(CommandLine, t, context)).value) && r.value.title != ""
    ensures r.Failure? ==> r.message == model(UserPrompt(CommandLine, t, context)).message
  {
    match model(UserPrompt(CommandLine, t, context))
    case Failure(msg) => Failure(msg)
    case Ok(text) => Ok(Parse(text))
  }

  /** `main` up to the printing of the post: the positional target
      defaults to "Seattle". */
  function Run(token: Option<string>, reddit: Reddit, model: Model): (r: Result<GeneratedPost>)
    ensures var t := ResolveTarget(token, DefaultSubreddit);
            && (CliContext(t, reddit).Failure? ==> r == Failure(CliContext(t, reddit).message))
            && (CliContext(t, reddit).Ok? ==> r == GeneratePost(t, CliContext(t, reddit).value, model))
    ensures r.Ok? ==> r.value.title != ""
  {
    var t := ResolveTarget(token, DefaultSubreddit);
    match CliContext(t, reddit)
    case Failure(msg) => Failure(msg)
    case Ok(context) => GeneratePost(t, context, model)
  }

  // ---------------------------------------------------------------------
  // Lemmas
  // ---------------------------------------------------------------------

  /** The command line and the bot see the same subreddit listing the same
      way, apart from the comment label: a listing whose posts show no
      comment line gives both front ends the same context. */
  lemma SameContextWithoutComments(listing: seq<SubredditContext.Post>, limit: nat)
    requires forall i :: 0 <= i < |listing| ==>
               forall j :: 0 <= j < Min(|listing[i].comments|, SubredditContext.CommentWindow) ==>
                 |listing[i].comments[j]| >= SubredditContext.CommentCharLimit
    ensures SubredditContext.Context(CommandLine, listing, limit) == SubredditContext.Context(DiscordBot, listing, limit)
  {
    var b := SubredditContext.SubredditItems(DiscordBot, listing, limit);
    var c := SubredditContext.SubredditItems(CommandLine, listing, limit);
    forall i | 0 <= i < |b|
      ensures b[i] == c[i]
    {
      SubredditContext.FrontendsDifferOnlyInCommentLabel(listing[i]);
    }
    assert b == c;
  }

  /** A completion without any tag is shown as it is, under the
      placeholder title. */
  lemma UntaggedCompletionShownWhole(t: Target, context: string, model: Model)
    requires model(UserPrompt(CommandLine, t, context)).Ok?
    requires Untagged(Split(model(UserPrompt(CommandLine, t, context)).value, LineBreak))
    ensures GeneratePost(t, context, model)
            == Ok(GeneratedPost(DefaultTitle, model(UserPrompt(CommandLine, t, context)).value))
  {
    ParseUnlabelled(model(UserPrompt(CommandLine, t, context)).value);
  }
}
