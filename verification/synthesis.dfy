/** The step between the context and the language model: the user prompt
    that wraps the first 4000 characters of the context, and the bot's
    conversion of a failed completion into an error string. */
module Synthesis {
  import opened Wrappers
  import opened PyText
  import opened Variants
  import opened Targets

  /** How much of the context the prompt carries. */
  const ContextCharLimit: nat := 4000
  const GenerationErrorPrefix := "Error generating post: "

  /** `context[:4000]`: the part of the context the model gets to see. */
  function PromptContext(context: string): (r: string)
    ensures |r| == Min(|context|, ContextCharLimit)
    ensures r == context[..|r|]
  {
    Take(context, ContextCharLimit)
  }

  /** The text in front of the context: bot.py names the target's handle,
      cli.py does not. */
  function PromptHeader(fe: Frontend, t: Target): string {
    match fe
    case DiscordBot => "Here's recent content from " + Handle(t) + ":\n\n"
    case CommandLine => "Recent content:\n\n"
  }

  /** The instruction after the context. */
  function PromptFooter(fe: Frontend): string {
    match fe
    case DiscordBot => "\n\nNow generate a satirical Reddit post that parodies this style. Include both a title and body."
    case CommandLine => "\n\nGenerate a satirical post."
  }

  /** The first 4000 characters of the context between a header and a
      footer. The context sits at a fixed offset, and the text grows with
      the context only up to 4000 characters. */
  function Embed(header: string, context: string, footer: string): (p: string)
    ensures |p| == |header| + Min(|context|, ContextCharLimit) + |footer|
    ensures StartsWith(p, header)
    ensures p[|header|..|header| + Min(|context|, ContextCharLimit)] == context[..Min(|context|, ContextCharLimit)]
    ensures p[|header| + Min(|context|, ContextCharLimit)..] == footer
  {
    var c := PromptContext(context);
    var p := header + c + footer;
    assert p[..|header|] == header;
    assert p[|header|..|header| + |c|] == c;
    assert p[|header| + |c|..] == footer;
    p
  }

  /** The user message sent to the model: the front end's header, the
      first 4000 characters of the context, the front end's footer. */
  function UserPrompt(fe: Frontend, t: Target, context: string): string {
    Embed(PromptHeader(fe, t), context, PromptFooter(fe))
  }

  /** bot.py's `generate_satirical_post` result: the completion's text,
      or the error wrapped into a string when the call failed. */
  function GenerationText(completion: Result<string>): (r: string)
    ensures completion.Ok? ==> r == completion.value
    ensures completion.Failure? ==> StartsWith(r, GenerationErrorPrefix)
    ensures completion.Failure? ==> r[|GenerationErrorPrefix|..] == completion.message
  {
    match completion
    case Ok(text) => text
    case Failure(msg) =>
      var r := GenerationErrorPrefix + msg;
      assert r[..|GenerationErrorPrefix|] == GenerationErrorPrefix;
      r
  }

  // ---------------------------------------------------------------------
  // Lemmas
  // ---------------------------------------------------------------------

  /** Two contexts give the same text exactly when their first 4000
      characters agree: nothing after the cut is embedded, and everything
      before it is. */
  lemma EmbedSeesOnlyFirst4000(header: string, footer: string, c1: string, c2: string)
    ensures Embed(header, c1, footer) == Embed(header, c2, footer) <==> PromptContext(c1) == PromptContext(c2)
  {
    var p1 := Embed(header, c1, footer);
    if p1 == Embed(header, c2, footer) {
      assert |PromptContext(c1)| == |PromptContext(c2)|;
      assert PromptContext(c1) == p1[|header|..|header| + |PromptContext(c1)|];
    }
  }

  /** The same holds for both front ends' prompts. */
  lemma PromptSeesOnlyFirst4000(fe: Frontend, t: Target, c1: string, c2: string)
    ensures UserPrompt(fe, t, c1) == UserPrompt(fe, t, c2) <==> PromptContext(c1) == PromptContext(c2)
  {
    EmbedSeesOnlyFirst4000(PromptHeader(fe, t), PromptFooter(fe), c1, c2);
  }

  /** A context of at most 4000 characters reaches the model whole. */
  lemma ShortContextWhole(c: string)
    requires |c| <= ContextCharLimit
    ensures PromptContext(c) == c
  {
  }

  /** A longer context is cut at exactly 4000 characters. */
  lemma LongContextCut(c: string)
    requires |c| > ContextCharLimit
    ensures PromptContext(c) == c[..ContextCharLimit]
    ensures |PromptContext(c)| == ContextCharLimit
  {
  }
}
