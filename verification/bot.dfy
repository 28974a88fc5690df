/** The Discord command `!seattleaf`: resolve the target, fetch its
    context, prompt the model, and fit the reply under Discord's message
    limit. Every failure along the way becomes text, so the command always
    answers. */
module Bot {
  import opened Wrappers
  import opened PyText
  import opened Variants
  import opened Targets
  import opened Synthesis
  import opened Sources
  import SubredditContext
  import UserContext

  /** How much of the generated text a reply keeps before the ellipsis. */
  const ReplyCharLimit: nat := 1900
  const Ellipsis := "..."
  /** Discord's limit on the length of one message. */
  const DiscordMessageLimit: nat := 2000

  /** The generated text as it is posted: unchanged up to 1900 characters,
      otherwise its first 1900 characters followed by "...". */
  function ReplyText(result: string): (r: string)
    ensures |result| <= ReplyCharLimit ==> r == result
    ensures |result| > ReplyCharLimit ==> |r| == ReplyCharLimit + |Ellipsis|
    ensures |result| > ReplyCharLimit ==> r[..ReplyCharLimit] == result[..ReplyCharLimit] && r[ReplyCharLimit..] == Ellipsis
  {
    if |result| > ReplyCharLimit then result[..ReplyCharLimit] + Ellipsis else result
  }

  /** `**Simulating r/<name>:**` or `**Simulating u/<name>:**`. */
  function ReplyHeader(t: Target): (h: string)
    ensures |h| == |t.name| + 18
  {
    "**Simulating " + Handle(t) + ":**"
  }

  /** The message sent to the channel: header, a blank line, the reply. */
  function DiscordMessage(t: Target, result: string): (m: string)
    ensures StartsWith(m, ReplyHeader(t))
    ensures m[|ReplyHeader(t)|..] == "\n\n" + ReplyText(result)
  {
    var h := ReplyHeader(t);
    var m := h + "\n\n" + ReplyText(result);
    assert m[..|h|] == h;
    assert m[|h|..] == "\n\n" + ReplyText(result);
    m
  }

  /** Everything one `!seattleaf` invocation computes. */
  datatype Turn = Turn(target: Target, context: string, prompt: string, result: string, message: string)

  /** The context the bot fetches for a target, with its default limits. */
  function BotContext(t: Target, reddit: Reddit): (c: string)
    ensures t.Subreddit? ==>
              c == SubredditContext.FetchContext(reddit.hot(t.name), SubredditContext.DefaultPostLimit)
    ensures t.User? ==>
              c == UserContext.FetchContext(reddit.comments(t.name), reddit.submissions(t.name), UserContext.DefaultCommentLimit)
  {
    match t
    case Subreddit(name) => SubredditContext.FetchContext(reddit.hot(name), SubredditContext.DefaultPostLimit)
    case User(name) => UserContext.FetchContext(reddit.comments(name), reddit.submissions(name), UserContext.DefaultCommentLimit)
  }

  /** One invocation of the command. A missing token is replaced by the
      configured default; the fetch and the completion never abort the
      command, because their failures are already strings. The message
      sent is the target's header, a blank line and the generated text cut
      to 1900 characters, and it fits Discord's limit whenever the target's
      name has at most 77 characters. */
  function Seattleaf(token: Option<string>, default: string, reddit: Reddit, model: Model): (turn: Turn)
    ensures turn.target == ResolveTarget(token, default)
    ensures turn.context == BotContext(turn.target, reddit)
    ensures turn.prompt == UserPrompt(DiscordBot, turn.target, turn.context)
    ensures turn.result == GenerationText(model(turn.prompt))
    ensures StartsWith(turn.message, ReplyHeader(turn.target))
    ensures turn.message[|ReplyHeader(turn.target)|..] == "\n\n" + ReplyText(turn.result)
    ensures |turn.target.name| <= 77 ==> |turn.message| <= DiscordMessageLimit
  {
    var t := ResolveTarget(token, default);
    var context := BotContext(t, reddit);
    var prompt := UserPrompt(DiscordBot, t, context);
    var result := GenerationText(model(prompt));
    DiscordMessageFits(t, result);
    Turn(t, context, prompt, result, DiscordMessage(t, result))
  }

  // ---------------------------------------------------------------------
  // Lemmas
  // ---------------------------------------------------------------------

  /** The reply is never longer than 1903 characters, and it is shorter
      than the generated text only when that was over the limit. */
  lemma ReplyBounded(result: string)
    ensures |ReplyText(result)| <= ReplyCharLimit + |Ellipsis|
    ensures |ReplyText(result)| <= |result| <==> |result| <= ReplyCharLimit || |result| >= ReplyCharLimit + |Ellipsis|
  {
  }

  /** Cutting a reply that was already cut changes nothing. */
  lemma ReplyIdempotent(result: string)
    ensures ReplyText(ReplyText(result)) == ReplyText(result)
  {
    var r := ReplyText(result);
    if |result| > ReplyCharLimit {
      assert r[..ReplyCharLimit] + Ellipsis == r;
    }
  }

  /** The whole message fits Discord's limit whenever the target's name has
      at most 77 characters; with a longer name and a generated text over
      1900 characters it does not. */
  lemma DiscordMessageFits(t: Target, result: string)
    ensures |t.name| <= 77 ==> |DiscordMessage(t, result)| <= DiscordMessageLimit
    ensures |t.name| > 77 && |result| > ReplyCharLimit ==> |DiscordMessage(t, result)| > DiscordMessageLimit
  {
    var m := DiscordMessage(t, result);
    assert |m| == |ReplyHeader(t)| + |m[|ReplyHeader(t)|..]|;
  }

  /** A failed subreddit fetch still produces a reply: the error text is
      what the model is shown as context. */
  lemma FailedSubredditFetchPrompted(token: Option<string>, default: string, reddit: Reddit, model: Model)
    requires ResolveTarget(token, default).Subreddit?
    requires reddit.hot(ResolveTarget(token, default).name).Failure?
    ensures var turn := Seattleaf(token, default, reddit, model);
            turn.context == SubredditContext.FetchErrorPrefix + reddit.hot(turn.target.name).message
  {
  }

  /** A failed completion is posted as an error text under the usual
      header. */
  lemma FailedCompletionPosted(token: Option<string>, default: string, reddit: Reddit, model: Model)
    requires var t := ResolveTarget(token, default);
             model(UserPrompt(DiscordBot, t, BotContext(t, reddit))).Failure?
    ensures var turn := Seattleaf(token, default, reddit, model);
            StartsWith(turn.result, GenerationErrorPrefix)
  {
  }

  /** With no token and the default configuration, the bot simulates
      r/Seattle. */
  lemma DefaultTurn(reddit: Reddit, model: Model)
    ensures Seattleaf(None, DefaultSubreddit, reddit, model).target == Subreddit("Seattle")
  {
    DefaultTarget();
  }

  /** ... and says so in the header of its reply. */
  lemma DefaultHeader()
    ensures ReplyHeader(Subreddit(DefaultSubreddit)) == "**Simulating r/Seattle:**"
  {
  }
}
