/** What the Reddit client and the language model deliver, as plain
    functions: listings looked up by name, and a completion for a prompt.
    A failed call is a `Failure` carrying the exception's message. */
module Sources {
  import opened Wrappers
  import SubredditContext
  import UserContext

  /** The three listings the pipeline reads: a subreddit's hot posts, a
      user's newest comments and a user's newest submissions, each the
      whole listing; the pipeline applies its own limits. */
  datatype Reddit = Reddit(
    hot: string -> Result<seq<SubredditContext.Post>>,
    comments: string -> Result<seq<UserContext.Comment>>,
    submissions: string -> Result<seq<UserContext.Submission>>)

  /** The chat-completion call: the user prompt in, the generated text or
      an error out. */
  type Model = string -> Result<string>
}
