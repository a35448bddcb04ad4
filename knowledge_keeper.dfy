/** The scripted knowledge-keeper chatbot: a message list that only ever
    grows at the end, a welcome prompt, keyword routing of typed questions,
    and a fixed table of replies to the buttons. Delayed replies are explicit
    later steps that the caller runs with the value the earlier step handed
    back. */
module KnowledgeKeeper {
  import opened Common

  datatype Sender = UserSender | BotSender

  /** The bot's canned replies. `Buttons` carries the actions of the buttons
      it offers; the others stand for a fixed text or a fixed card. */
  datatype Reply =
    | Greeting | SprintRecall | OkayAskAnything
    | SummaryGenerated | SummaryCard
    | BlockersIntro | BlockersChart
    | RetroWelcome
    | ThemesIntro | ThemesView
    | VelocityAnalysis | OfferTicket
    | TeamNotified | TasksCreated | GotIt
    | VelocityDip | HelpMenu
    | Buttons(actions: seq<string>)

  /** A message: the user's own text, or one of the bot's replies. */
  datatype Message = UserMessage(text: string) | BotMessage(reply: Reply)

  predicate IsBot(m: Message) { m.BotMessage? }

  // ---------------------------------------------------------------- text

  /** The characters `String.prototype.trim` removes: the white-space and
      line-terminator code points of the ECMAScript standard. */
  predicate IsWhitespace(c: char)
  {
    c in {' ', '\t', '\n', '\r', '\U{000B}', '\U{000C}', '\U{00A0}', '\U{1680}',
          '\U{2000}', '\U{2001}', '\U{2002}', '\U{2003}', '\U{2004}', '\U{2005}',
          '\U{2006}', '\U{2007}', '\U{2008}', '\U{2009}', '\U{200A}',
          '\U{2028}', '\U{2029}', '\U{202F}', '\U{205F}', '\U{3000}', '\U{FEFF}'}
  }

  /** `s` without its leading white space. */
  function TrimStart(s: string): (r: string)
    ensures |r| <= |s| && r == s[|s| - |r|..]
    ensures r == [] || !IsWhitespace(r[0])
    ensures forall i :: 0 <= i < |s| - |r| ==> IsWhitespace(s[i])
  {
    if s != [] && IsWhitespace(s[0]) then TrimStart(s[1..]) else s
  }

  /** `s` without its trailing white space. */
  function TrimEnd(s: string): (r: string)
    ensures |r| <= |s| && r == s[..|r|]
    ensures r == [] || !IsWhitespace(r[|r| - 1])
    ensures forall i :: |r| <= i < |s| ==> IsWhitespace(s[i])
  {
    if s != [] && IsWhitespace(s[|s| - 1]) then TrimEnd(s[..|s| - 1]) else s
  }

  function Trim(s: string): string { TrimEnd(TrimStart(s)) }

  /** The send guard: the input is rejected exactly when trimming leaves
      nothing, that is when every character is white space. */
  predicate IsBlank(s: string) { Trim(s) == [] }

  lemma BlankIffAllWhitespace(s: string)
    ensures IsBlank(s) <==> forall i :: 0 <= i < |s| ==> IsWhitespace(s[i])
  {
    var t := TrimStart(s);
    if t != [] {
      // the first kept character is not white space, so trimming the end
      // stops at it at the latest
      assert !IsWhitespace(t[0]) && t[0] == s[|s| - |t|];
    }
  }

  /** ASCII upper-case letters lowered; every other character kept. */
  function LowerChar(c: char): (d: char)
    ensures 'A' <= c <= 'Z' ==> 'a' <= d <= 'z' && d as int - c as int == 32
    ensures !('A' <= c <= 'Z') ==> d == c
  {
    if 'A' <= c <= 'Z' then (c as int + 32) as char else c
  }

  function ToLower(s: string): (r: string)
    ensures |r| == |s|
    ensures forall i :: 0 <= i < |s| ==> r[i] == LowerChar(s[i])
  {
    if s == [] then [] else [LowerChar(s[0])] + ToLower(s[1..])
  }

  /** Lowering twice is lowering once, and a lowered text has no upper-case
      ASCII letter left. */
  lemma {:induction false} ToLowerIdempotent(s: string)
    ensures ToLower(ToLower(s)) == ToLower(s)
    ensures forall i :: 0 <= i < |s| ==> !('A' <= ToLower(s)[i] <= 'Z')
  {
    assert |ToLower(ToLower(s))| == |ToLower(s)|;
    forall i | 0 <= i < |s| ensures ToLower(ToLower(s))[i] == ToLower(s)[i] {
    }
  }

  /** `sub` occurs in `s` at position `i`. */
  predicate OccursAt(s: string, sub: string, i: int)
  {
    0 <= i && i + |sub| <= |s| && s[i..i + |sub|] == sub
  }

  /** `String.prototype.includes`. */
  function Contains(s: string, sub: string): (b: bool)
    ensures b <==> exists i :: OccursAt(s, sub, i)
    decreases |s|
  {
    if |s| < |sub| then false
    else if s[..|sub|] == sub then
      assert OccursAt(s, sub, 0);
      true
    else
      ContainsShift(s, sub);
      Contains(s[1..], sub)
  }

  /** Away from the front, an occurrence in `s` is an occurrence in its tail. */
  lemma ContainsShift(s: string, sub: string)
    requires |s| >= |sub| && s[..|sub|] != sub
    ensures (exists i :: OccursAt(s, sub, i)) <==> (exists i :: OccursAt(s[1..], sub, i))
  {
    if i :| OccursAt(s, sub, i) {
      assert i != 0;
      assert s[1..][i - 1..i - 1 + |sub|] == s[i..i + |sub|];
      assert OccursAt(s[1..], sub, i - 1);
    }
    if i :| OccursAt(s[1..], sub, i) {
      assert s[1..][i..i + |sub|] == s[i + 1..i + 1 + |sub|];
      assert OccursAt(s, sub, i + 1);
    }
  }

  /** A text holding a longer word holds every prefix of it. */
  lemma ContainsPrefix(s: string, word: string, n: nat)
    requires n <= |word| && Contains(s, word)
    ensures Contains(s, word[..n])
  {
    var i :| OccursAt(s, word, i);
    assert s[i..i + n] == word[..n];
    assert OccursAt(s, word[..n], i);
  }

  /** `action.replace('-', ' ')`: a string pattern replaces only its first
      occurrence. */
  function ReplaceFirst(s: string, from: char, to: char): (r: string)
    ensures |r| == |s|
    ensures from !in s ==> r == s
    ensures from in s ==> exists k :: 0 <= k < |s| && s[k] == from && from !in s[..k] && r == s[k := to]
  {
    if s == [] then []
    else if s[0] == from then
      assert from !in s[..0];
      [to] + s[1..]
    else
      var rest := ReplaceFirst(s[1..], from, to);
      ReplaceFirstCons(s[0], s[1..], from, to, rest);
      assert s == [s[0]] + s[1..];
      [s[0]] + rest
  }

  /** The step of ReplaceFirst past a character that is not the pattern: the
      first occurrence moves one place right. */
  lemma ReplaceFirstCons(c: char, t: string, from: char, to: char, rest: string)
    requires c != from && |rest| == |t|
    requires from !in t ==> rest == t
    requires from in t ==> exists k :: 0 <= k < |t| && t[k] == from && from !in t[..k] && rest == t[k := to]
    ensures from !in [c] + t ==> [c] + rest == [c] + t
    ensures from in [c] + t ==>
              exists k :: 0 <= k < |[c] + t| && ([c] + t)[k] == from && from !in ([c] + t)[..k]
                          && [c] + rest == ([c] + t)[k := to]
  {
    var s := [c] + t;
    if from in t {
      var k :| 0 <= k < |t| && t[k] == from && from !in t[..k] && rest == t[k := to];
      assert s[..k + 1] == [c] + t[..k];
      assert [c] + rest == s[k + 1 := to];
    }
  }

  /** The echo of a button action: the first hyphen becomes a space and every
      later one stays. */
  lemma EchoReplacesFirstHyphenOnly()
    ensures ReplaceFirst("show-blockers", '-', ' ') == "show blockers"
    ensures ReplaceFirst("a-b-c", '-', ' ') == "a b-c"
  {
    var s := "show-blockers";
    assert s[4] == '-' && '-' !in s[..4];
    assert s[4 := ' '] == "show blockers";
    var t := "a-b-c";
    assert t[1] == '-' && '-' !in t[..1];
    assert t[1 := ' '] == "a b-c";
  }

  // ------------------------------------------------------------- routing

  datatype Route = ToBlockers | ToRetro | ToVelocity | ToHelp

  /** The typed-question router, over the lowered text, in its order:
      'blocker' or 'block', then 'retro', then 'velocity' or 'performance',
      else the help menu. */
  function RouteOf(input: string): (r: Route)
    ensures r == ToBlockers <==> Contains(input, "block")
    ensures r == ToRetro <==> !Contains(input, "block") && Contains(input, "retro")
    ensures r == ToVelocity <==> !Contains(input, "block") && !Contains(input, "retro")
                                 && (Contains(input, "velocity") || Contains(input, "performance"))
    ensures r == ToHelp <==> !Contains(input, "block") && !Contains(input, "retro")
                             && !Contains(input, "velocity") && !Contains(input, "performance")
  {
    if Contains(input, "blocker") then
      ContainsPrefix(input, "blocker", 5);
      assert "blocker"[..5] == "block";
      ToBlockers
    else if Contains(input, "block") then ToBlockers
    else if Contains(input, "retro") then ToRetro
    else if Contains(input, "velocity") || Contains(input, "performance") then ToVelocity
    else ToHelp
  }

  /** Lowering keeps every occurrence: a word found in a text is found,
      lowered, in the lowered text. */
  lemma LoweringKeepsOccurrences(s: string, w: string)
    requires Contains(s, w)
    ensures Contains(ToLower(s), ToLower(w))
  {
    var i :| OccursAt(s, w, i);
    var ls, lw := ToLower(s), ToLower(w);
    forall j | 0 <= j < |w| ensures ls[i..i + |w|][j] == lw[j] {
      assert s[i..i + |w|][j] == w[j];
    }
    assert ls[i..i + |w|] == lw;
    assert OccursAt(ls, lw, i);
  }

  /** The keyword test runs on the lowered text, so capitals do not matter:
      a question holding "BLOCK", "Block" or any other spelling of the word
      goes to the blockers route. */
  lemma RouteIgnoresCase(s: string, w: string)
    requires Contains(s, w) && ToLower(w) == "block"
    ensures RouteOf(ToLower(s)) == ToBlockers
  {
    LoweringKeepsOccurrences(s, w);
  }

  // ------------------------------------------------------------ replies

  /** The bot's reply to a button action (the delayed half of
      handleButtonAction). */
  function ActionResponses(action: string): (ms: seq<Message>)
    ensures 1 <= |ms| <= 3
    ensures forall i :: 0 <= i < |ms| ==> IsBot(ms[i])
  {
    match action
    case "generate-summary" => [BotMessage(SummaryGenerated), BotMessage(SummaryCard)]
    case "show-blockers" => [BotMessage(BlockersIntro), BotMessage(BlockersChart)]
    case "start-retro" => [BotMessage(RetroWelcome), BotMessage(Buttons(["show-themes", "show-incidents"]))]
    case "show-themes" => [BotMessage(ThemesIntro), BotMessage(ThemesView)]
    case "show-velocity" =>
      [BotMessage(VelocityAnalysis), BotMessage(OfferTicket), BotMessage(Buttons(["create-tasks", "skip"]))]
    case "notify-team" => [BotMessage(TeamNotified)]
    case "create-tasks" => [BotMessage(TasksCreated)]
    case _ => [BotMessage(GotIt)]
  }

  /** How many messages each action adds: two for the summary, blockers,
      retro and themes actions, three for the velocity analysis, one for
      everything else, and only unknown actions fall back to "got it". */
  lemma ActionResponseCounts(action: string)
    ensures action in ["generate-summary", "show-blockers", "start-retro", "show-themes"] <==> |ActionResponses(action)| == 2
    ensures action == "show-velocity" <==> |ActionResponses(action)| == 3
    ensures ActionResponses(action) == [BotMessage(GotIt)] <==>
              action !in ["generate-summary", "show-blockers", "start-retro", "show-themes",
                          "show-velocity", "notify-team", "create-tasks"]
  {
  }

  /** The delayed reply to a typed question: the blockers and retro routes
      press the matching button (its echo now, its reply one more step
      later); the velocity route offers the analysis; the rest get help. */
  function RouteMessages(r: Route): seq<Message>
  {
    match r
    case ToBlockers => [UserMessage("show blockers")]
    case ToRetro => [UserMessage("start retro")]
    case ToVelocity => [BotMessage(VelocityDip), BotMessage(Buttons(["show-velocity", "skip"]))]
    case ToHelp => [BotMessage(HelpMenu)]
  }

  function RouteAction(r: Route): Option<string>
  {
    match r
    case ToBlockers => Some("show-blockers")
    case ToRetro => Some("start-retro")
    case _ => None
  }

  /** The welcome prompt's messages: the sprint recall and its three buttons
      for 'yes', one short text otherwise. */
  function WelcomeMessages(response: string): (ms: seq<Message>)
    ensures |ms| == (if response == "yes" then 2 else 1)
    ensures forall i :: 0 <= i < |ms| ==> IsBot(ms[i])
  {
    if response == "yes" then
      [BotMessage(SprintRecall), BotMessage(Buttons(["generate-summary", "edit-summary", "skip"]))]
    else [BotMessage(OkayAskAnything)]
  }

  /** Every button the bot offers is one of seven actions. Of these,
      "edit-summary", "skip" and "show-incidents" have no reply of their own
      and get the fallback answer. */
  lemma OfferedButtonsAnswer(response: string, r: Route, action: string)
    ensures var offered := WelcomeMessages(response) + RouteMessages(r) + ActionResponses(action);
            forall i, j :: 0 <= i < |offered| && offered[i].BotMessage? && offered[i].reply.Buttons?
                           && 0 <= j < |offered[i].reply.actions| ==>
                           offered[i].reply.actions[j] in
                             ["generate-summary", "edit-summary", "skip", "show-themes",
                              "show-incidents", "create-tasks", "show-velocity"]
  {
  }

  // --------------------------------------------------------------- state

  const GreetingMessage: Message := BotMessage(Greeting)

  /** The chat widget's state. */
  class Chat {
    var isOpen: bool
    var messages: seq<Message>
    var inputValue: string
    var showWelcomeModal: bool

    constructor ()
      ensures !isOpen && messages == [] && inputValue == "" && showWelcomeModal
    {
      isOpen := false;
      messages := [];
      inputValue := "";
      showWelcomeModal := true;
    }

    /** addMessage: one message at the end, earlier ones untouched. */
    method AddMessage(m: Message)
      modifies this
      ensures messages == old(messages) + [m]
      ensures isOpen == old(isOpen) && inputValue == old(inputValue) && showWelcomeModal == old(showWelcomeModal)
    {
      messages := messages + [m];
    }

    /** setIsOpen, followed by the effect that runs when the flag changes: an
        open, empty chat without the welcome prompt greets the user. */
    method SetOpen(open: bool)
      modifies this
      ensures isOpen == open
      ensures messages == old(messages) +
                (if open && !old(isOpen) && old(messages) == [] && !old(showWelcomeModal) then [GreetingMessage] else [])
      ensures inputValue == old(inputValue) && showWelcomeModal == old(showWelcomeModal)
    {
      var changed := open != isOpen;
      isOpen := open;
      if changed && isOpen && messages == [] && !showWelcomeModal {
        AddMessage(GreetingMessage);
      }
    }

    /** The welcome prompt's close button. */
    method DismissWelcome()
      modifies this
      ensures !showWelcomeModal
      ensures isOpen == old(isOpen) && messages == old(messages) && inputValue == old(inputValue)
    {
      showWelcomeModal := false;
    }

    /** Typing into the input box. */
    method SetInput(text: string)
      modifies this
      ensures inputValue == text
      ensures isOpen == old(isOpen) && messages == old(messages) && showWelcomeModal == old(showWelcomeModal)
    {
      inputValue := text;
    }

    /** handleWelcomeResponse: close the prompt, open the chat and add the
        welcome messages. The open effect then finds messages already there,
        so no greeting follows. */
    method HandleWelcomeResponse(response: string)
      modifies this
      ensures !showWelcomeModal && isOpen
      ensures messages == old(messages) + WelcomeMessages(response)
      ensures GreetingMessage !in messages[|old(messages)|..]
      ensures inputValue == old(inputValue)
    {
      showWelcomeModal := false;
      messages := messages + WelcomeMessages(response);
      SetOpen(true);
    }

    /** handleSendMessage: blank input changes nothing; otherwise the text is
        added as a user message, the box is cleared, and the lowered text is
        handed back for the delayed reply (SendReplyFires). */
    method HandleSendMessage() returns (pending: Option<string>)
      modifies this
      ensures IsBlank(old(inputValue)) ==>
                pending == None && messages == old(messages) && inputValue == old(inputValue)
      ensures !IsBlank(old(inputValue)) ==>
                && pending == Some(ToLower(old(inputValue)))
                && messages == old(messages) + [UserMessage(old(inputValue))]
                && inputValue == ""
      ensures isOpen == old(isOpen) && showWelcomeModal == old(showWelcomeModal)
    {
      if IsBlank(inputValue) {
        return None;
      }
      var userText := inputValue;
      AddMessage(UserMessage(userText));
      inputValue := "";
      pending := Some(ToLower(userText));
    }

    /** handleButtonAction: echo the action as a user message now; the reply
        follows in ActionReplyFires. */
    method HandleButtonAction(action: string)
      modifies this
      ensures messages == old(messages) + [UserMessage(ReplaceFirst(action, '-', ' '))]
      ensures isOpen == old(isOpen) && inputValue == old(inputValue) && showWelcomeModal == old(showWelcomeModal)
    {
      AddMessage(UserMessage(ReplaceFirst(action, '-', ' ')));
    }

    /** The delayed half of handleButtonAction. */
    method ActionReplyFires(action: string)
      modifies this
      ensures messages == old(messages) + ActionResponses(action)
      ensures isOpen == old(isOpen) && inputValue == old(inputValue) && showWelcomeModal == old(showWelcomeModal)
    {
      messages := messages + ActionResponses(action);
    }

    /** The delayed half of handleSendMessage, given the lowered text: the
        routed messages are added, and a pressed button's own reply is
        handed back as the next pending step. */
    method SendReplyFires(userInput: string) returns (followUp: Option<string>)
      modifies this
      ensures messages == old(messages) + RouteMessages(RouteOf(userInput))
      ensures followUp == RouteAction(RouteOf(userInput))
      ensures isOpen == old(isOpen) && inputValue == old(inputValue) && showWelcomeModal == old(showWelcomeModal)
    {
      var r := RouteOf(userInput);
      match r {
        case ToBlockers =>
          assert ReplaceFirst("show-blockers", '-', ' ') == "show blockers" by { EchoReplacesFirstHyphenOnly(); }
          HandleButtonAction("show-blockers");
          followUp := Some("show-blockers");
        case ToRetro =>
          assert ReplaceFirst("start-retro", '-', ' ') == "start retro" by {
            var s := "start-retro";
            assert s[5] == '-' && '-' !in s[..5];
            assert s[5 := ' '] == "start retro";
          }
          HandleButtonAction("start-retro");
          followUp := Some("start-retro");
        case ToVelocity =>
          AddMessage(BotMessage(VelocityDip));
          AddMessage(BotMessage(Buttons(["show-velocity", "skip"])));
          followUp := None;
        case ToHelp =>
          AddMessage(BotMessage(HelpMenu));
          followUp := None;
      }
    }
  }

  /** A question mentioning blockers ends, after both delayed steps, with the
      echo "show blockers" followed by the two blocker messages. */
  lemma BlockerQuestionTranscript(input: string)
    requires Contains(input, "block")
    ensures RouteMessages(RouteOf(input)) + ActionResponses(RouteAction(RouteOf(input)).value) ==
            [UserMessage("show blockers"), BotMessage(BlockersIntro), BotMessage(BlockersChart)]
  {
  }
}
