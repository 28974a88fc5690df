/** Subreddit mode of the context fetcher: the posts of a "hot" listing
    rendered one by one, capped, and joined into one context string. */
module SubredditContext {
  import opened Wrappers
  import opened PyText
  import opened Variants

  /** A post as the Reddit client delivers it, with the bodies of its
      top-level comments in the order the client lists them. */
  datatype Post = Post(title: string, selftext: string, comments: seq<string>)

  /** `fetch_subreddit_context`'s default `limit` on the hot listing. */
  const DefaultPostLimit: nat := 25
  /** A body is shown only when it is shorter than this. */
  const BodyCharLimit: nat := 500
  /** How many of the first comments are looked at. */
  const CommentWindow: nat := 3
  /** A comment is shown only when it is shorter than this. */
  const CommentCharLimit: nat := 300
  /** How many of the qualifying comments are shown. */
  const CommentsShown: nat := 2
  /** How many rendered posts the context keeps. */
  const RenderedPostCap: nat := 15

  const PostSeparator := "\n\n---\n\n"
  const CommentSeparator := " | "
  const FetchErrorPrefix := "Error fetching subreddit: "

  /** The comment line's label: bot.py says "Top comments", cli.py "Comments". */
  function CommentsLabel(fe: Frontend): string {
    match fe
    case DiscordBot => "\nTop comments: "
    case CommandLine => "\nComments: "
  }

  /** The body line: present exactly when the selftext is non-empty and
      shorter than 500 characters, and then it carries the whole selftext
      (the `[:500]` cut never bites). */
  function BodyLine(p: Post): (r: string)
    ensures r != "" <==> p.selftext != "" && |p.selftext| < BodyCharLimit
    ensures r != "" ==> r == "\nBody: " + p.selftext
  {
    if p.selftext != "" && |p.selftext| < BodyCharLimit then "\nBody: " + Take(p.selftext, BodyCharLimit)
    else ""
  }

  /** The comments shorter than 300 characters, in their original order. */
  function ShortComments(cs: seq<string>): (r: seq<string>)
    ensures |r| <= |cs|
    ensures forall c :: c in r <==> c in cs && |c| < CommentCharLimit
  {
    if |cs| == 0 then []
    else if |cs[0]| < CommentCharLimit then [cs[0]] + ShortComments(cs[1..])
    else ShortComments(cs[1..])
  }

  /** The comments that make it into a post's comment line: the first two
      of the short comments among the first three, in order (fewer when
      fewer qualify), so each is shorter than 300 characters and among the
      first three; none at all exactly when none of the first three is
      short enough. */
  function TopComments(comments: seq<string>): (r: seq<string>)
    ensures |r| == Min(CommentsShown, |ShortComments(Take(comments, CommentWindow))|)
    ensures r == ShortComments(Take(comments, CommentWindow))[..|r|]
    ensures forall k :: 0 <= k < |r| ==> |r[k]| < CommentCharLimit && r[k] in Take(comments, CommentWindow)
    ensures r == [] <==> forall i :: 0 <= i < Min(|comments|, CommentWindow) ==> |comments[i]| >= CommentCharLimit
  {
    var window := Take(comments, CommentWindow);
    var short := ShortComments(window);
    var r := Take(short, CommentsShown);
    assert forall k :: 0 <= k < |r| ==> r[k] in short;
    assert r == [] ==> forall i :: 0 <= i < |window| ==> |window[i]| >= CommentCharLimit by {
      if r == [] {
        assert short == [];
        assert forall i :: 0 <= i < |window| ==> window[i] in window;
      }
    }
    assert r != [] ==> short[0] in short;
    r
  }

  /** The comment line: omitted exactly when none of the first three
      comments is shorter than 300 characters, otherwise the front end's
      label followed by the shown comments separated by " | ". */
  function CommentsLine(fe: Frontend, comments: seq<string>): (r: string)
    ensures r == "" <==> forall i :: 0 <= i < Min(|comments|, CommentWindow) ==> |comments[i]| >= CommentCharLimit
    ensures r != "" ==> r == CommentsLabel(fe) + Join(TopComments(comments), CommentSeparator)
  {
    var top := TopComments(comments);
    if top == [] then ""
    else
      var r := CommentsLabel(fe) + Join(top, CommentSeparator);
      assert r[..|CommentsLabel(fe)|] == CommentsLabel(fe);
      r
  }

  /** One post's rendered text: its title line, then the optional body
      and comment lines. */
  function RenderPost(fe: Frontend, p: Post): (r: string)
    ensures StartsWith(r, "Title: " + p.title)
    ensures r[|"Title: " + p.title|..] == BodyLine(p) + CommentsLine(fe, p.comments)
  {
    var head := "Title: " + p.title;
    var tail := BodyLine(p) + CommentsLine(fe, p.comments);
    var r := head + tail;
    assert r[..|head|] == head;
    assert r[|head|..] == tail;
    r
  }

  /** Each post rendered, in listing order. */
  function RenderAll(fe: Frontend, posts: seq<Post>): (r: seq<string>)
    ensures |r| == |posts|
    ensures forall i :: 0 <= i < |r| ==> r[i] == RenderPost(fe, posts[i])
  {
    if |posts| == 0 then [] else [RenderPost(fe, posts[0])] + RenderAll(fe, posts[1..])
  }

  /** The rendered items of the context: the first `limit` posts of the
      listing are rendered, and the first 15 of those are kept, in listing
      order. */
  function SubredditItems(fe: Frontend, listing: seq<Post>, limit: nat): (r: seq<string>)
    ensures |r| == Min(RenderedPostCap, Min(limit, |listing|))
    ensures forall i :: 0 <= i < |r| ==> r[i] == RenderPost(fe, listing[i])
  {
    Take(RenderAll(fe, Take(listing, limit)), RenderedPostCap)
  }

  /** The context string both front ends build from a listing. */
  function Context(fe: Frontend, listing: seq<Post>, limit: nat): string {
    Join(SubredditItems(fe, listing, limit), PostSeparator)
  }

  /** bot.py's `fetch_subreddit_context`: a failed fetch becomes an error
      string instead of an exception. */
  function FetchContext(fetched: Result<seq<Post>>, limit: nat): (r: string)
    ensures fetched.Failure? ==> r == FetchErrorPrefix + fetched.message
    ensures fetched.Ok? ==> r == Join(SubredditItems(DiscordBot, fetched.value, limit), PostSeparator)
  {
    match fetched
    case Failure(msg) => FetchErrorPrefix + msg
    case Ok(listing) => Context(DiscordBot, listing, limit)
  }

  // ---------------------------------------------------------------------
  // Lemmas
  // ---------------------------------------------------------------------

  /** A single comment is kept exactly when it is shorter than 300
      characters. */
  lemma ShortCommentsSingle(c: string)
    ensures ShortComments([c]) == if |c| < CommentCharLimit then [c] else []
  {
    assert [c][1..] == [];
  }

  /** Filtering a concatenation filters each part and keeps their order:
      together with `ShortComments[c]` this makes `ShortComments` the
      order-preserving filter of the list comprehension, duplicates
      included. */
  lemma {:induction false} ShortCommentsAppend(a: seq<string>, b: seq<string>)
    ensures ShortComments(a + b) == ShortComments(a) + ShortComments(b)
    decreases |a|
  {
    if |a| == 0 {
      assert a + b == b;
    } else {
      assert (a + b)[0] == a[0];
      assert (a + b)[1..] == a[1..] + b;
      ShortCommentsAppend(a[1..], b);
    }
  }

  /** A short comment between long ones among the first three: only the
      short ones are shown, in order, skipping the long one. */
  lemma ShortLongShortShown(comments: seq<string>)
    requires |comments| >= 3
    requires |comments[0]| < CommentCharLimit && |comments[2]| < CommentCharLimit
    requires |comments[1]| >= CommentCharLimit
    ensures TopComments(comments) == [comments[0], comments[2]]
  {
    var window := Take(comments, CommentWindow);
    assert window == [comments[0]] + [comments[1]] + [comments[2]];
    ShortCommentsSingle(comments[0]);
    ShortCommentsSingle(comments[1]);
    ShortCommentsSingle(comments[2]);
    ShortCommentsAppend([comments[0]] + [comments[1]], [comments[2]]);
    ShortCommentsAppend([comments[0]], [comments[1]]);
  }

  /** When the first two comments are both short, they are the ones shown,
      in order, and the third is ignored. */
  lemma FirstTwoShortCommentsShown(comments: seq<string>)
    requires |comments| >= 2
    requires |comments[0]| < CommentCharLimit && |comments[1]| < CommentCharLimit
    ensures TopComments(comments) == comments[..2]
  {
    var window := Take(comments, CommentWindow);
    assert window[0] == comments[0] && window[1] == comments[1];
    assert window == [window[0]] + window[1..];
    assert window[1..] == [window[1]] + window[2..];
    assert ShortComments(window)[..2] == comments[..2];
  }

  /** A long comment among the first three is skipped and the next short
      one takes its place. */
  lemma LongCommentSkipped(comments: seq<string>)
    requires |comments| >= 3
    requires |comments[0]| >= CommentCharLimit
    requires |comments[1]| < CommentCharLimit && |comments[2]| < CommentCharLimit
    ensures TopComments(comments) == comments[1..3]
  {
    var window := Take(comments, CommentWindow);
    assert window == [comments[0], comments[1], comments[2]];
    assert window[1..] == [comments[1], comments[2]];
    assert window[1..][1..] == [comments[2]];
    assert window[1..][1..][1..] == [];
    assert ShortComments(window[1..][1..]) == [comments[2]];
    assert ShortComments(window[1..]) == [comments[1], comments[2]];
    assert ShortComments(window) == [comments[1], comments[2]];
  }

  /** A line under the bot's label never equals one under the command
      line's label: the labels differ in their second character. */
  lemma CommentLabelsDiffer(b: string, c: string)
    requires StartsWith(b, CommentsLabel(DiscordBot))
    requires StartsWith(c, CommentsLabel(CommandLine))
    ensures b != c
  {
    var lb := CommentsLabel(DiscordBot);
    var lc := CommentsLabel(CommandLine);
    assert lb[1] == 'T' && lc[1] == 'C';
    assert b[1] == b[..|lb|][1] == lb[1];
    assert c[1] == c[..|lc|][1] == lc[1];
  }

  /** The two front ends render a post identically unless it has a
      comment line, where only the label differs. */
  lemma FrontendsDifferOnlyInCommentLabel(p: Post)
    ensures RenderPost(DiscordBot, p) == RenderPost(CommandLine, p)
        <==> forall i :: 0 <= i < Min(|p.comments|, CommentWindow) ==> |p.comments[i]| >= CommentCharLimit
  {
    var n := |"Title: " + p.title|;
    var rb := RenderPost(DiscordBot, p);
    var rc := RenderPost(CommandLine, p);
    var b := CommentsLine(DiscordBot, p.comments);
    var c := CommentsLine(CommandLine, p.comments);
    if b == "" {
      assert rb == rb[..n] + rb[n..];
      assert rc == rc[..n] + rc[n..];
    } else {
      CommentLabelsDiffer(b, c);
      var tb := BodyLine(p) + b;
      var tc := BodyLine(p) + c;
      assert tb[|BodyLine(p)|..] == b;
      assert tc[|BodyLine(p)|..] == c;
      assert rb[n..] != rc[n..];
    }
  }

}
