/** The routing gate of `handle_text`: what happens to a text message once it
    is known to be new, decided from its stripped content split at spaces. */
module Routing {
  import opened Text

  datatype Route =
    | Ignore        // group chatter that does not start with a command
    | AnswerTip     // a bare command: answer with the command tip
    | LeaveToOther  // a command of another plugin
    | Forward       // go on to the key checks, the points gate and Dify

  /** `content.strip().split(" ")[0]`: the stripped content up to its first
      space, or all of it when it holds no space. */
  function FirstWord(content: string): (w: string)
    ensures ' ' !in w
    ensures w == Strip(content)
      || (|w| < |Strip(content)| && Strip(content)[..|w| + 1] == w + " ")
  {
    SplitHead(Strip(content), ' ');
    Split(Strip(content), ' ')[0]
  }

  /** The `if`/`elif` chain of `handle_text` over `command`, the space-split
      stripped content. (Python's `split` never returns an empty list, so the
      `not command` test of the source never holds.) */
  function RouteText(content: string, isGroup: bool, commands: seq<string>,
                     otherCmds: seq<string>): (r: Route)
    ensures r == Ignore <==> isGroup && FirstWord(content) !in commands
    ensures r == AnswerTip <==> ' ' !in Strip(content) && Strip(content) in commands
    ensures r == LeaveToOther <==>
      !(isGroup && FirstWord(content) !in commands)
      && !(' ' !in Strip(content) && Strip(content) in commands)
      && FirstWord(content) in otherCmds
  {
    var command := Split(Strip(content), ' ');
    SplitHead(Strip(content), ' ');
    if (|command| == 0 || command[0] !in commands) && isGroup then Ignore
    else if |command| == 1 && command[0] in commands then AnswerTip
    else if |command| > 0 && command[0] in otherCmds then LeaveToOther
    else Forward
  }

  /** A private text is never ignored, whatever its first word. */
  lemma PrivateTextNotIgnored(content: string, commands: seq<string>, otherCmds: seq<string>)
    ensures RouteText(content, false, commands, otherCmds) != Ignore
  {
  }

  /** A text is forwarded exactly when it is a private text or starts with a
      command, is more than a bare command, and does not start with another
      plugin's command. */
  lemma ForwardIff(content: string, isGroup: bool, commands: seq<string>, otherCmds: seq<string>)
    ensures RouteText(content, isGroup, commands, otherCmds) == Forward <==>
      (!isGroup || FirstWord(content) in commands)
      && !(' ' !in Strip(content) && Strip(content) in commands)
      && FirstWord(content) !in otherCmds
  {
  }

  /** Padding a text with whitespace does not change its route. */
  lemma {:induction false} RouteIgnoresPadding(pre: string, content: string, post: string,
                                               isGroup: bool, commands: seq<string>,
                                               otherCmds: seq<string>)
    requires AllSpace(pre) && AllSpace(post)
    ensures RouteText(pre + content + post, isGroup, commands, otherCmds)
         == RouteText(content, isGroup, commands, otherCmds)
  {
    StripAbsorbsPadding(pre, content, post);
  }
}
