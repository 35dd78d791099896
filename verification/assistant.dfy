/** The assistant transcript's building blocks: the turns a send appends, the
    fixed offline reply, and the activity entry that summarises a question. */
module Assistant {
  import opened Records
  import opened JsText

  /** How many characters of the question the activity entry quotes. */
  const SummaryLimit := 50

  const AskedPrefix := "Asked: \""

  /** The description of the ai_interaction entry: the trimmed question, cut to
      its first 50 characters with "..." after a cut, quoted after "Asked: ". */
  function AskedDescription(message: string): (d: string)
    ensures AskedPrefix <= d && d[|d| - 1] == '"'
    ensures |Trim(message)| <= SummaryLimit ==> d == AskedPrefix + Trim(message) + "\""
    ensures |Trim(message)| > SummaryLimit ==>
      |d| == |AskedPrefix| + SummaryLimit + 4
      && d[|AskedPrefix|..|AskedPrefix| + SummaryLimit] == Trim(message)[..SummaryLimit]
      && d[|AskedPrefix| + SummaryLimit..] == "...\""
  {
    var t := Trim(message);
    if |t| <= SummaryLimit then
      AskedPrefix + t + "\""
    else
      var d := AskedPrefix + t[..SummaryLimit] + "...\"";
      assert d[|AskedPrefix|..|AskedPrefix| + SummaryLimit] == t[..SummaryLimit];
      d
  }

  /** The entry a non-blank send prepends to the activity log. */
  function AskedEntry(message: string, nowMs: nat): (e: ActivityEntry)
    ensures e.kind == AiInteraction && e.description == AskedDescription(message)
  {
    ActivityEntry(DecimalString(nowMs), AiInteraction, "AI Career Assistant",
                  AskedDescription(message), nowMs, BotIcon, "text-purple-400")
  }

  /** The reply shown when the assistant endpoint cannot be used. */
  const OfflineReply :=
    "I'm here to help with your career journey! I can assist with:\n\n"
    + "\U{1F3AF} **Career Guidance**: Path recommendations, goal setting\n"
    + "\U{1F4DA} **Learning**: Course suggestions, skill development  \n"
    + "\U{1F4BC} **Job Search**: Resume tips, interview prep\n"
    + "\U{1F4CA} **Market Insights**: Salary data, industry trends\n\n"
    + "What would you like to explore today? \U{1F680}"

  /** The user's turn: the draft as typed, untrimmed. */
  function UserTurn(message: string, sentMs: nat): (m: AIMessage)
    ensures m.role == User && m.content == message && m.timestamp == sentMs
  {
    AIMessage(DecimalString(sentMs), User, message, sentMs)
  }

  /** The assistant's turn once the request settles: the reply verbatim when
      the endpoint answered, the offline text on any failure. Its id is the
      clock reading plus one. */
  function AssistantTurn(reply: Response<string>, repliedMs: nat): (m: AIMessage)
    ensures m.role == Assistant
    ensures reply.Ok? ==> m.content == reply.body
    ensures !reply.Ok? ==> m.content == OfflineReply
    ensures m.id == DecimalString(repliedMs + 1)
  {
    var content := if reply.Ok? then reply.body else OfflineReply;
    AIMessage(DecimalString(repliedMs + 1), Assistant, content, repliedMs)
  }

  /** The user's turn and the reply to it share an id exactly when the clock
      read for the reply is one millisecond behind the one read for the
      question; with a clock that does not step back they never do. */
  lemma TurnIdsDiffer(message: string, reply: Response<string>, sentMs: nat, repliedMs: nat)
    ensures UserTurn(message, sentMs).id == AssistantTurn(reply, repliedMs).id
            <==> sentMs == repliedMs + 1
    ensures sentMs <= repliedMs ==>
            UserTurn(message, sentMs).id != AssistantTurn(reply, repliedMs).id
  {
    if UserTurn(message, sentMs).id == AssistantTurn(reply, repliedMs).id {
      DecimalStringInjective(sentMs, repliedMs + 1);
    }
  }
}
