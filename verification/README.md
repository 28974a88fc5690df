# Seattle-Simulator text pipeline in Dafny

Seattle-Simulator makes satirical Reddit posts. It has two front ends.
`bot.py` is a Discord bot with the command `!seattleaf [target]`.
`cli.py` is a command-line tool. Both run the same pipeline:

1. parse the target token into a subreddit or a Reddit user;
2. fetch the subreddit's hot posts, or the user's newest comments and
   submissions;
3. render that data into one context string, with fixed caps and labels;
4. cut the context to 4000 characters and wrap it in a prompt;
5. hand the prompt to a language model.

After that the front ends differ. The bot cuts the answer to fit a Discord
message. The CLI parses a `TITLE:` / `BODY:` structured answer into a title
and a body.

This project models that pipeline as pure functions over already-fetched
data and proves properties of it. The Reddit client and the language model
are function parameters (`Sources.Reddit`, `Sources.Model`) that return a
`Result`. A `Failure` stands for the exception the real client would raise.

| module | file | what it models |
|---|---|---|
| `Wrappers` | wrappers.dfy | `Option` and `Result` |
| `PyText` | pytext.dfy | the Python string operations used, with Python's semantics: `s[:n]`, `startswith`, `in`, `sep.join`, `split("\n")`, `lstrip(chars)`, `strip()`, `replace(pat, "")` |
| `Variants` | variants.dfy | which front end is rendering (`DiscordBot` or `CommandLine`) |
| `Targets` | targets.dfy | target parsing, the default target, and the `r/`/`u/` handle |
| `SubredditContext` | subreddit_context.dfy | `fetch_subreddit_context` in both front ends |
| `UserContext` | user_context.dfy | `fetch_user_context` in both front ends |
| `Synthesis` | synthesis.dfy | the prompt and the `context[:4000]` cut; the bot's completion-error text |
| `Sources` | sources.dfy | the Reddit listings and the model call, as functions |
| `ResponseParser` | response_parser.dfy | the TITLE/BODY parser of `generate_post` in cli.py, as the loop it is |
| `ParserReference` | parser_reference.dfy | a description of the parser's outcome that does not follow the loop: last title line, first body line, what later lines contribute |
| `ParserLemmas` | parser_lemmas.dfy | the loop agrees with that description, and what `Parse` yields for untagged and well-formed answers |
| `Bot` | bot.dfy | `!seattleaf`: target, context, prompt, 1900-character cut, Discord message |
| `Cli` | cli.dfy | cli.py's `main` up to printing the post |

## Behaviour worth knowing

- **Prefix stripping.** `lstrip("r/")` removes every leading `r` and `/`
  character. So `rainier` selects `ainier` and `r/r/x` selects `x`.
- **Empty names.** Nothing rejects an empty subreddit name. A token made of
  `r` and `/` characters only selects the subreddit `""`. Only a missing
  token falls back to the default; an empty token does not.
- **Which title is used.** The title comes from the *last* line that starts
  with `TITLE:`, even one after the first `BODY:` line. The `TITLE:` test
  comes first in the loop, so such a line is never appended to the body.
  `replace` removes every `TITLE:` in that line, wherever it occurs.
- **Later `BODY:` lines.** Every line that starts with `BODY:` has its
  `BODY:` occurrences removed and the rest stripped before it joins the
  body.
- **Fallbacks are independent.** The title placeholder is used when no
  title line exists or its text strips to nothing. Separately, the whole
  response becomes the body when the collected body lines join to `""`. That
  happens with no `BODY:` line at all, and also when the only collected line
  is empty, as with a bare `BODY:` that only `TITLE:` lines follow.
- **Errors.** bot.py turns a failed fetch or completion into text and
  always answers. cli.py catches no fetch or completion error, so such a
  failure ends the run; `Cli.Run` returns that `Failure`.

## Model

| member | source | states |
|---|---|---|
| PyText.Take | bot.py:119 | `s[:n]` has length min(\|s\|, n) and is a prefix of `s` |
| PyText.Join | bot.py:64 | the joined length is the parts' total length plus one separator per gap |
| PyText.Split | cli.py:110 | `split("\n")` yields at least one piece, and no piece contains the separator |
| PyText.JoinSplit | cli.py:110 | joining the pieces of a split with the separator gives back the text |
| PyText.SplitJoin | cli.py:110 | splitting a join of separator-free lines gives back the lines |
| PyText.JoinEmpty | cli.py:126 | a `"\n"`-join is empty exactly when there are no parts or one empty part |
| PyText.LStrip | bot.py:165 | `lstrip` leaves a suffix whose first character is outside the set |
| PyText.RStrip | cli.py:117 | `rstrip` leaves a prefix whose last character is outside the set |
| PyText.Strip | cli.py:117 | `strip()` leaves no whitespace at either end |
| PyText.StripRemovesOnlyWhitespace | cli.py:117 | `strip()` keeps one contiguous slice and removes only whitespace around it |
| PyText.LStripIdempotent | bot.py:165 | `lstrip` applied twice with the same set is `lstrip` applied once |
| PyText.StripIdempotent | cli.py:117 | stripping twice is stripping once |
| PyText.RemoveAllNeverLonger | cli.py:117 | `replace(pat, "")` never makes the text longer |
| PyText.RemoveAllLeading | cli.py:117 | a leading occurrence is removed and the scan continues after it |
| PyText.RemoveAllAbsent | cli.py:117 | a text without the pattern is unchanged |
| PyText.SpaceAddsNoOccurrence | cli.py:117 | a leading space creates no new occurrence of a tag |
| PyText.StripLeadingSpace | cli.py:117 | stripping `" " + w` gives `w` when `w` has no outer whitespace |
| Targets.ParseTarget | bot.py:158-165 | the result is a user exactly when the token starts with `u/`, named by the rest; otherwise a subreddit named by a suffix of the token that starts with neither `r` nor `/` |
| Targets.StripsOnlyPrefixChars | bot.py:165 | what is cut off a subreddit token consists only of `r` and `/` |
| Targets.ResolveTarget | bot.py:154-155 | a missing token is replaced by the default, which is then parsed like any token |
| Targets.Handle | bot.py:117 | the handle is `r/` for a subreddit or `u/` for a user, followed by the name |
| Targets.DefaultTarget | cli.py:132 | with no token the target is the subreddit `Seattle` |
| Targets.SubredditNameStable | bot.py:165 | stripping a parsed subreddit name again changes nothing |
| Targets.SubredditPrefixOptional | cli.py:146 | for a name not starting with `r` or `/`, `r/name` and `name` select the same subreddit |
| Targets.LeadingLetterStripped | bot.py:165 | a name starting with a single `r` loses it (`rainier` selects `ainier`) |
| Targets.PrefixRunStripped | cli.py:146 | any non-empty run of `r` and `/` before a name is removed (`r/r/x` selects `x`) |
| Targets.LStripPrefixChars | bot.py:165 | stripping a run of `r`/`/` characters in front of a name leaves the name |
| Targets.UserHandleBehindPrefix | bot.py:158-165 | `r/u/x` selects the subreddit `u/x`, not a user |
| SubredditContext.BodyLine | bot.py:53-54 | the body line is present iff the selftext is non-empty and shorter than 500, and then holds the whole selftext |
| SubredditContext.ShortComments | bot.py:58 | exactly the comments shorter than 300 characters are kept, and none is invented |
| SubredditContext.ShortCommentsSingle | bot.py:58 | one comment is kept iff it is shorter than 300 characters |
| SubredditContext.ShortCommentsAppend | bot.py:58 | filtering a concatenation is the concatenation of the filtered parts, so order and duplicates are kept |
| SubredditContext.TopComments | bot.py:58-60 | the shown comments are the first min(2, n) of the n short comments among the first three, in order; none iff none of the first three is short |
| SubredditContext.CommentsLine | bot.py:58-60 | the comment line is omitted iff no comment qualifies, and otherwise is the front end's label followed by the shown comments joined by ` \| ` |
| SubredditContext.RenderPost | bot.py:52-62 | a rendered post is `Title: ` and the title, followed by the body line and then the comment line |
| SubredditContext.RenderAll | bot.py:51-62 | posts are rendered one to one, in listing order |
| SubredditContext.SubredditItems | bot.py:51-64 | min(15, limit, \|listing\|) rendered posts are kept, the i-th being the i-th post |
| SubredditContext.CommentsLabel | bot.py:60 | no contract of its own: the bot's `Top comments` and the CLI's `Comments` label; `CommentLabelsDiffer` states they never give equal lines |
| SubredditContext.Context | bot.py:64 | no contract of its own: the items joined by the post separator; `FetchContext` states it for the bot and `Cli.CliContext` for the CLI |
| SubredditContext.FetchContext | bot.py:45-66 | a failed fetch yields `Error fetching subreddit: ` and the message; otherwise the items joined by `\n\n---\n\n` |
| SubredditContext.FirstTwoShortCommentsShown | bot.py:58-60 | when the first two comments are short, exactly they are shown |
| SubredditContext.LongCommentSkipped | bot.py:58 | a long first comment is skipped, and the second and third are shown |
| SubredditContext.ShortLongShortShown | bot.py:58-60 | with a long comment between two short ones, the two short ones are shown in order |
| SubredditContext.CommentLabelsDiffer | cli.py:51 | lines under the bot's and the CLI's comment labels never coincide |
| SubredditContext.FrontendsDifferOnlyInCommentLabel | cli.py:43-53 | the two front ends render a post identically iff it has no comment line |
| UserContext.SubredditTag | bot.py:76 | the `[r/S] ` tag is five characters longer than the subreddit name |
| UserContext.RenderComment | bot.py:76 | a comment is its tag followed by the first 300 characters of its body |
| UserContext.RenderComments | bot.py:75-76 | comments are rendered one to one, in order |
| UserContext.RenderSubmissions | bot.py:78-82 | submissions are rendered one to one, in order |
| UserContext.UserItems | bot.py:75-84 | min(20, min(limit, \|comments\|) + min(10, \|submissions\|)) items survive |
| UserContext.CommentsFirst | bot.py:75-84 | the first items are the user's comments, in order |
| UserContext.SubmissionsAfter | bot.py:78-84 | after the comments come the submissions, in order, up to the cap |
| UserContext.SubmissionsShownIff | bot.py:84 | submissions appear iff fewer than 20 comments were taken and there is a submission |
| UserContext.SubmissionSuffix | bot.py:79-81 | a submission starts with tag, label and title; the ` - ` suffix is present iff the selftext is non-empty and holds its first 200 characters |
| UserContext.CommentsFillContext | bot.py:84 | with 20 or more comments the context holds comments only |
| UserContext.FetchContext | bot.py:69-86 | comments are fetched first; the first failure yields `Error fetching user: ` and its message |
| UserContext.SubmissionLabel | bot.py:79 | no contract of its own: `Title: ` for the bot, nothing for the CLI (cli.py:67) |
| UserContext.SubmissionHead | bot.py:79 | no contract of its own: tag, label and title; `SubmissionSuffix` states what follows it |
| UserContext.Context | bot.py:84 | no contract of its own: the items joined by a blank line; their contents are stated by `CommentsFirst` and `SubmissionsAfter` |
| Synthesis.PromptContext | bot.py:119 | the model sees a prefix of the context of length min(\|context\|, 4000) |
| Synthesis.Embed | bot.py:117-121 | the prompt is the header, then the cut context at a fixed offset, then the footer |
| Synthesis.PromptHeader | bot.py:117-118 | no contract of its own: the bot's `Here's recent content from` line naming the handle, or the CLI's `Recent content:` (cli.py:101); `Embed` states where it goes |
| Synthesis.PromptFooter | bot.py:120-121 | no contract of its own: the instruction after the context, per front end (cli.py:101); `Embed` states where it goes |
| Synthesis.EmbedSeesOnlyFirst4000 | cli.py:101 | two contexts give the same text iff their first 4000 characters agree |
| Synthesis.PromptSeesOnlyFirst4000 | bot.py:119 | two contexts give the same prompt iff their first 4000 characters agree |
| Synthesis.ShortContextWhole | bot.py:119 | a context of at most 4000 characters is embedded whole |
| Synthesis.LongContextCut | bot.py:119 | a longer context is cut at exactly 4000 characters |
| Synthesis.GenerationText | bot.py:133-135 | a completion's text is passed on; a failure becomes `Error generating post: ` and its message |
| Bot.ReplyText | bot.py:171-172 | the text is unchanged up to 1900 characters; otherwise it is its first 1900 characters plus `...`, 1903 in all |
| Bot.ReplyBounded | bot.py:171-172 | a reply never exceeds 1903 characters and is shorter than the text only when the text was cut |
| Bot.ReplyIdempotent | bot.py:171-172 | cutting an already cut reply changes nothing |
| Bot.ReplyHeader | bot.py:162-168 | the header is 18 characters longer than the target's name |
| Bot.DiscordMessage | bot.py:174 | the message is the header, a blank line, then the reply |
| Bot.DiscordMessageFits | bot.py:170-174 | the message fits 2000 characters whenever the name has at most 77 characters, and not with a longer name and a cut reply |
| Bot.BotContext | bot.py:158-166 | a user's context comes from their comments and submissions (limit 30), a subreddit's from its hot listing (limit 25) |
| Bot.Seattleaf | bot.py:153-174 | one command: the resolved target, its fetched context, the bot prompt and the error-wrapped completion; the message is the header, a blank line and the cut reply, and fits 2000 characters for names of at most 77 characters |
| Bot.FailedSubredditFetchPrompted | bot.py:65-66 | a failed fetch does not stop the command; the error text becomes the model's context |
| Bot.FailedCompletionPosted | bot.py:134-135 | a failed completion is posted as error text |
| Bot.DefaultTurn | bot.py:154-155 | without a token the bot simulates r/Seattle |
| Bot.DefaultHeader | bot.py:168 | the default reply header is `**Simulating r/Seattle:**` |
| Cli.CliContext | cli.py:139-150 | the CLI renders with its own labels and limits 25 and 30; a failed fetch is passed on as it is, comments before submissions |
| Cli.GeneratePost | cli.py:97-127 | the CLI prompt goes to the model; a failure is passed on, and a text is parsed into a post with a non-empty title |
| Cli.Run | cli.py:137-153 | the run fails with the first failure; otherwise it yields the parsed post of the resolved target |
| Cli.SameContextWithoutComments | cli.py:38-55 | without comment lines, the CLI's subreddit context equals the bot's |
| Cli.UntaggedCompletionShownWhole | cli.py:125-126 | an answer with no tags yields the placeholder title and the whole answer as the body |
| ResponseParser.Parse | cli.py:110-127 | the parsed title is never empty |
| ResponseParser.TitleText | cli.py:117 | no contract of its own: every `TITLE:` removed, then stripped; `TaggedText` states what it gives for `TITLE: w` |
| ResponseParser.BodyText | cli.py:119 | no contract of its own: every `BODY:` removed, then stripped; `TaggedText` states what it gives for `BODY: w` |
| ResponseParser.Step | cli.py:115-122 | no contract of its own: one iteration of the loop; `ScanMatchesReference` characterises its repetition |
| ResponseParser.Scan | cli.py:115-122 | no contract of its own: the loop over all lines; `ScanMatchesReference` states its outcome against `ParserReference` |
| ParserReference.LastTitleIndex | cli.py:116-117 | the index of the last `TITLE:` line, with none after it |
| ParserReference.FirstBodyIndex | cli.py:118-120 | the index of the first `BODY:` line, with none before it |
| ParserLemmas.TagsExclusive | cli.py:116-118 | no line is both a title line and a body line |
| ParserLemmas.ScanInBody | cli.py:118-121 | `in_body` is set iff a `BODY:` line has been read |
| ParserLemmas.ContributionsFromBodySnoc | cli.py:118-122 | one more line grows the contributions by its own contribution once the body has started, by its text if it is the first `BODY:` line, and not at all before |
| ParserLemmas.ScanBodyLines | cli.py:115-122 | the body lines are the contributions of the lines from the first `BODY:` line on; earlier lines add nothing |
| ParserLemmas.ScanTitle | cli.py:116-117 | the title is the text of the last `TITLE:` line, or empty when there is none |
| ParserLemmas.ScanMatchesReference | cli.py:115-122 | the loop agrees with the reference description on all three variables |
| ParserLemmas.ParseTitle | cli.py:115-125 | the title is the last `TITLE:` line's text, or the placeholder when that is missing or empty |
| ParserLemmas.ParseBody | cli.py:115-126 | the body is the joined contributions, or the whole response when they are none or a single empty line |
| ParserLemmas.ParseUnlabelled | cli.py:125-126 | a response without tags parses to the placeholder and the whole response |
| ParserLemmas.BodyIgnoresTitle | cli.py:116-122 | the title never influences the body lines or `in_body` |
| ParserLemmas.ScanAppend | cli.py:115 | scanning a concatenation continues from the state after the first part |
| ParserLemmas.TitleLineNotInBody | cli.py:116-122 | removing a `TITLE:` line anywhere leaves the body lines unchanged |
| ParserLemmas.ContributionsUntagged | cli.py:121-122 | untagged lines after `BODY:` are kept verbatim |
| ParserLemmas.TaggedText | cli.py:117-119 | `tag w` with a clean `w` yields `w` after the tag is removed and the text stripped |
| ParserLemmas.ScanTitleBody | cli.py:115-122 | a title line, a body line and untagged lines scan to that title and those body lines |
| ParserLemmas.ParseTitleBody | cli.py:110-127 | such a response parses to the first line's title and the joined body lines |
| ParserLemmas.ParseWellFormed | cli.py:110-127 | `TITLE: t`, `BODY: b` and untagged lines parse to `t` and `b` joined with those lines, e.g. `TITLE: Foo\nBODY: bar\nbaz` to `Foo` and `bar\nbaz` |

## Left out

- The Discord bot's setup and transport are left out: intents, async
  commands, `ctx.typing`, `ctx.send` and the `!seattlehelp` text. Only the
  value that would be sent is computed.
- argparse, printing, the `input()` confirmation and `--post` submission
  in cli.py are interactive I/O and are left out. `Cli.Run` stops at the
  parsed post.
- The PRAW and Groq clients, `load_dotenv` and environment variables are
  not modelled. Fetched data is an input, and the configured default
  subreddit is a parameter of `Bot.Seattleaf`.
- `replace_more(limit=0)` is a library call. A post's comment list is
  taken as given.
- The hot, comment and submission listings are lazy in PRAW, so an
  exception can come part-way through one. The model has one `Result` per
  listing, so a partly read listing is not modelled.
- The system prompts are not modelled. Neither are the model name,
  `max_tokens` and `temperature`: they only shape what the opaque model
  returns. The user prompt is modelled exactly. Because the model sees
  only the user prompt, and the CLI's user prompt (cli.py:101) does not
  name the target, the CLI's completion does not depend on the target in
  the model, although cli.py:78-95 picks the system prompt from it.
- A completion whose content is `None` is not modelled; the completion
  is always text or a failure.
- PyText.RemoveAll: no general characterisation of `replace` is proved.
  Its contracts cover what the parser relies on: it never lengthens the
  text (`RemoveAllNeverLonger`), it removes a leading occurrence
  (`RemoveAllLeading`), and it leaves a text without the pattern alone
  (`RemoveAllAbsent`).
- Synthesis.UserPrompt: it carries no contract of its own. It is
  `Embed` applied to the front end's header and footer, and `Embed` and
  `PromptSeesOnlyFirst4000` state its properties.
- UserContext.RenderSubmission: it carries no contract of its own. Its
  shape is stated in `SubmissionSuffix`.
