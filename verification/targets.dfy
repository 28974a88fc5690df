/** What to simulate: a subreddit or a Reddit user, parsed from one token. */
module Targets {
  import opened Wrappers
  import opened PyText

  datatype Target = Subreddit(name: string) | User(name: string)

  /** The bot's fallback (`DEFAULT_SUBREDDIT`, "Seattle" unless configured)
      and the command line's argparse default. */
  const DefaultSubreddit := "Seattle"

  const UserPrefix := "u/"

  /** The argument of `lstrip("r/")`: a set of two characters. */
  const SubredditPrefixChars: set<char> := {'r', '/'}

  /** A token starting with `u/` names the user after that prefix; any other
      token names a subreddit after all of its leading `r` and `/`
      characters are dropped. */
  function ParseTarget(token: string): (t: Target)
    ensures t.User? <==> StartsWith(token, UserPrefix)
    ensures t.User? ==> t.name == token[2..]
    ensures t.Subreddit? ==> |t.name| <= |token| && t.name == token[|token| - |t.name|..]
    ensures t.Subreddit? ==> |t.name| == 0 || t.name[0] !in SubredditPrefixChars
  {
    if StartsWith(token, UserPrefix) then User(token[|UserPrefix|..])
    else Subreddit(LStrip(token, SubredditPrefixChars))
  }

  /** A missing token is replaced by the default before it is parsed, so
      the default goes through the same `u/` test and stripping. */
  function ResolveTarget(token: Option<string>, default: string): (t: Target)
    ensures token.None? ==> t == ParseTarget(default)
    ensures token.Some? ==> t == ParseTarget(token.value)
  {
    ParseTarget(token.GetOr(default))
  }

  /** How a target is written in prompts and reply headers: `r/name` or `u/name`. */
  function Handle(t: Target): (h: string)
    ensures |h| == |t.name| + 2
    ensures h[..2] == if t.Subreddit? then "r/" else "u/"
    ensures h[2..] == t.name
  {
    match t
    case Subreddit(n) => "r/" + n
    case User(n) => "u/" + n
  }

  // ---------------------------------------------------------------------
  // Lemmas
  // ---------------------------------------------------------------------

  /** With no token the pipeline simulates r/Seattle. */
  lemma DefaultTarget()
    ensures ResolveTarget(None, DefaultSubreddit) == Subreddit("Seattle")
  {
    assert !StartsWith(DefaultSubreddit, UserPrefix);
    assert DefaultSubreddit[0] !in SubredditPrefixChars;
  }

  /** What the stripping removes from a subreddit token is made of `r`
      and `/` characters only. */
  lemma StripsOnlyPrefixChars(token: string)
    requires ParseTarget(token).Subreddit?
    ensures AllIn(token[..|token| - |ParseTarget(token).name|], SubredditPrefixChars)
  {
  }

  /** A parsed subreddit name is a fixed point of the stripping: stripping
      it again changes nothing. */
  lemma SubredditNameStable(token: string)
    requires ParseTarget(token).Subreddit?
    ensures LStrip(ParseTarget(token).name, SubredditPrefixChars) == ParseTarget(token).name
  {
    LStripIdempotent(token, SubredditPrefixChars);
  }

  /** For a name that does not begin with `r` or `/`, the `r/` prefix is
      optional: both spellings select the same subreddit. */
  lemma SubredditPrefixOptional(name: string)
    requires |name| == 0 || (name[0] != 'r' && name[0] != '/')
    ensures ParseTarget("r/" + name) == Subreddit(name)
    ensures !StartsWith(name, UserPrefix) ==> ParseTarget(name) == Subreddit(name)
  {
    assert AllIn("r/", SubredditPrefixChars);
    PrefixRunStripped("r/", name);
  }

  /** `lstrip` removes characters, not a prefix: a name that begins with
      `r` loses that letter, so "rainier" selects r/ainier. */
  lemma LeadingLetterStripped(token: string)
    requires |token| >= 2 && token[0] == 'r' && token[1] !in SubredditPrefixChars
    ensures ParseTarget(token) == Subreddit(token[1..])
  {
    assert token == token[..1] + token[1..];
    PrefixRunStripped(token[..1], token[1..]);
  }

  /** Any run of `r` and `/` characters in front of a name goes, however
      often the prefix is repeated (`r/r/x` selects `x`). */
  lemma PrefixRunStripped(run: string, name: string)
    requires |run| > 0 && AllIn(run, SubredditPrefixChars)
    requires |name| == 0 || name[0] !in SubredditPrefixChars
    ensures ParseTarget(run + name) == Subreddit(name)
  {
    assert !StartsWith(run + name, UserPrefix) by {
      assert (run + name)[0] == run[0] && run[0] in SubredditPrefixChars;
    }
    LStripPrefixChars(run, name);
  }

  /** A user handle behind an `r/` becomes a subreddit name. */
  lemma UserHandleBehindPrefix()
    ensures ParseTarget("r/u/x") == Subreddit("u/x")
  {
    assert "r/u/x"[0] == 'r';
    assert "r/u/x" == ['r', '/'] + "u/x";
    LStripPrefixChars(['r', '/'], "u/x");
  }

  /** Stripping a run of prefix characters in front of a name that does not
      start with one leaves the name. */
  lemma {:induction false} LStripPrefixChars(run: string, name: string)
    requires AllIn(run, SubredditPrefixChars)
    requires |name| == 0 || name[0] !in SubredditPrefixChars
    ensures LStrip(run + name, SubredditPrefixChars) == name
    decreases |run|
  {
    if |run| > 0 {
      assert (run + name)[1..] == run[1..] + name;
      LStripPrefixChars(run[1..], name);
    }
  }
}
