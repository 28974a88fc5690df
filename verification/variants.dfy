/** The two front ends that share the pipeline: the Discord bot (bot.py) and
    the command-line tool (cli.py). Where their code differs in a label, the
    pipeline functions take the front end as a parameter. */
module Variants {
  datatype Frontend = DiscordBot | CommandLine
}
