/** The plugin's lucky-day command (LuckyDayServiceImpl). The permission checks, the
    random draws, the bot-info resource file and the chat service are inputs, and the
    message handed to the group is an output, so the handler is a pure function. */
module LuckyDay {
  import opened Results
  import opened Messages
  import opened ApiRequester
  import FileManager
  import Text
  import Decimal

  /** A fortune score: what Random.nextInt(100) returns. */
  type Percent = x: int | 0 <= x < 100

  /** The three draws, in the order the handler makes them. */
  datatype Draws = Draws(romance: Percent, school: Percent, wealth: Percent)

  /** The handler's value object (LuckDayDTO). */
  datatype LuckDay = LuckDay(sender: int, romanceFortune: Percent, schoolFortune: Percent, wealthFortune: Percent)

  /** One element of a group message: a mention of a member, or plain text. */
  datatype Part = At(target: int) | Plain(text: string)

  /** The exceptions that leave the handler. Unchecked is any runtime exception of a
      library call that the handler does not catch. */
  datatype Thrown = RequestException(message: string) | DataLoadException(message: string) | Unchecked

  /** Either a value or the exception that replaced it. */
  datatype Attempt<+T> = Done(value: T) | Threw(exception: Thrown)

  /** The user-facing texts of the plugin's message constants (their values live outside this model). */
  datatype MsgConstants = MsgConstants(duplicateError: string, requestError: string, botInfoLoadError: string)

  /** Everything outside the handler that it consults. `chatResult` stands for decoding
      the chat reply and taking its result field; its None is a decoding failure or a
      missing result, both of which end in an uncaught exception. */
  datatype Services = Services(
    baidu: BaiduConstants,
    config: Outcome<Config>,
    botInfo: Outcome<seq<string>>,
    net: Network,
    accessToken: string -> Option<string>,
    chatResult: string -> Option<string>,
    msgs: MsgConstants)

  /** What one command did: the message sent to the group (if any), the HTTP requests
      issued, and the exception that ended it (if any). */
  datatype Handled = Handled(sent: Option<seq<Part>>, requests: seq<HttpRequest>, thrown: Option<Thrown>)

  const Header: string := "你今天的运势结果来啦！\n"
  const WealthLabel: string := "财运："
  const RomanceLabel: string := "桃花运："
  const SchoolLabel: string := "学业："
  const PercentEnd: string := "%\n"
  const PromptIntro: string := "请你帮我分析今天的运势并且给我一个可爱的祝福语，要多多表现Kookie的可爱与天真，\n所有的对话都要充满日常感，不能让人感觉到跳脱。今天的运势是:"

  // ---------------------------------------------------------------- prompt

  /** The question appended to the bot-info turns: the scores in the order wealth, school, romance. */
  function PromptText(d: LuckDay): string
  {
    PromptIntro + WealthLabel + Decimal.NatToString(d.wealthFortune) +
    SchoolLabel + Decimal.NatToString(d.schoolFortune) +
    RomanceLabel + Decimal.NatToString(d.romanceFortune)
  }

  /** Reads a run of digits that must be followed by `caption`: the number and what follows the caption. */
  function ReadScoreThen(caption: string, text: string): Option<(nat, string)>
  {
    var a := Decimal.LeadingDigits(text);
    match (Decimal.ParseNat(a), Text.StripPrefix(caption, text[|a|..]))
    case (Some(x), Some(rest)) => Some((x, rest))
    case _ => None
  }

  /** Reads head, a number, l2, a number, l3 and a final number. */
  function ReadThreeScores(head: string, l2: string, l3: string, text: string): Option<(nat, nat, nat)>
  {
    match Text.StripPrefix(head, text)
    case None => None
    case Some(r1) =>
      match ReadScoreThen(l2, r1)
      case None => None
      case Some(p) =>
        match ReadScoreThen(l3, p.1)
        case None => None
        case Some(q) =>
          match Decimal.ParseNat(q.1)
          case None => None
          case Some(z) => Some((p.0, q.0, z))
  }

  /** Reads the three scores back out of a prompt, as (wealth, school, romance). */
  function ReadPromptScores(text: string): Option<(nat, nat, nat)>
  {
    ReadThreeScores(PromptIntro + WealthLabel, SchoolLabel, RomanceLabel, text)
  }

  lemma ScoreThenReadsBack(x: nat, caption: string, rest: string)
    requires |caption| >= 1 && !Decimal.IsDigit(caption[0])
    ensures ReadScoreThen(caption, Decimal.NatToString(x) + caption + rest) == Some((x, rest))
  {
    var a := Decimal.NatToString(x);
    var t := a + caption + rest;
    assert t == a + (caption + rest);
    Decimal.LeadingDigitsOf(a, caption + rest);
    assert t[|a|..] == caption + rest;
    Decimal.ParseNatRoundTrip(x);
  }

  lemma ThreeScoresReadBack(head: string, l2: string, l3: string, x: nat, y: nat, z: nat)
    requires |l2| >= 1 && !Decimal.IsDigit(l2[0])
    requires |l3| >= 1 && !Decimal.IsDigit(l3[0])
    ensures ReadThreeScores(head, l2, l3,
      head + Decimal.NatToString(x) + l2 + Decimal.NatToString(y) + l3 + Decimal.NatToString(z)) == Some((x, y, z))
  {
    var a := Decimal.NatToString(x);
    var b := Decimal.NatToString(y);
    var c := Decimal.NatToString(z);
    var r2 := b + l3 + c;
    var r1 := a + l2 + r2;
    Reassociate(head, a, l2, b, l3, c);
    Text.StripPrefixOf(head, r1);
    ScoreThenReadsBack(x, l2, r2);
    ScoreThenReadsBack(y, l3, c);
    Decimal.ParseNatRoundTrip(z);
  }

  lemma Reassociate(head: string, a: string, l2: string, b: string, l3: string, c: string)
    ensures head + a + l2 + b + l3 + c == head + (a + l2 + (b + l3 + c))
  {
  }

  /** The prompt states the scores in the order wealth, school, romance. */
  lemma PromptListsScores(d: LuckDay)
    ensures ReadPromptScores(PromptText(d)) == Some((d.wealthFortune as nat, d.schoolFortune as nat, d.romanceFortune as nat))
  {
    assert !Decimal.IsDigit(SchoolLabel[0]) && !Decimal.IsDigit(RomanceLabel[0]);
    ThreeScoresReadBack(PromptIntro + WealthLabel, SchoolLabel, RomanceLabel, d.wealthFortune, d.schoolFortune, d.romanceFortune);
  }

  /** createMessages: the bot-info turns followed by the one user question. An I/O failure
      reading the bot-info file becomes a DataLoadException; any other failure is not caught. */
  function CreateMessages(botInfo: Outcome<seq<string>>, d: LuckDay, msgs: MsgConstants): (r: Attempt<seq<Message>>)
    ensures botInfo.Err? && botInfo.fault == IoFault ==> r == Threw(DataLoadException(msgs.botInfoLoadError))
    ensures botInfo.Err? && botInfo.fault == UncheckedFault ==> r == Threw(Unchecked)
    ensures botInfo.Ok? ==> r.Done?
    ensures r.Done? ==>
      && |r.value| == |botInfo.value| + 1
      && r.value[..|botInfo.value|] == FileManager.ReadBotInfo(botInfo.value)
      && r.value[|botInfo.value|] == Message(User, PromptText(d))
  {
    match botInfo
    case Err(IoFault) => Threw(DataLoadException(msgs.botInfoLoadError))
    case Err(UncheckedFault) => Threw(Unchecked)
    case Ok(lines) => Done(FileManager.ReadBotInfo(lines) + [Message(User, PromptText(d))])
  }

  /** The prompt alternates user/assistant from start to end (so it also ends on a user
      turn) exactly when the bot-info file has an even number of lines. */
  lemma PromptAlternates(lines: seq<string>, d: LuckDay, msgs: MsgConstants)
    ensures CreateMessages(Ok(lines), d, msgs).Done?
    ensures Alternating(CreateMessages(Ok(lines), d, msgs).value) <==> |lines| % 2 == 0
  {
    var p := CreateMessages(Ok(lines), d, msgs).value;
    assert p[..|lines|] == FileManager.ReadBotInfo(lines);
    if |lines| % 2 == 0 {
      forall i | 0 <= i < |p|
        ensures p[i].role == User <==> i % 2 == 0
      {
        if i < |lines| {
          assert p[i] == p[..|lines|][i];
        }
      }
    } else {
      assert p[|lines|].role == User;
    }
  }

  // ---------------------------------------------------------------- replies

  function ScoreLine(caption: string, score: Percent): string
  {
    caption + Decimal.NatToString(score) + PercentEnd
  }

  /** The first sendMsg overload: mention the sender, a space, then the fortune report. */
  function FortuneReply(d: LuckDay, result: string): seq<Part>
  {
    [At(d.sender), Plain(" "), Plain(Header),
     Plain(ScoreLine(WealthLabel, d.wealthFortune)),
     Plain(ScoreLine(RomanceLabel, d.romanceFortune)),
     Plain(ScoreLine(SchoolLabel, d.schoolFortune)),
     Plain(result)]
  }

  /** The second sendMsg overload: mention the sender, a space, then the text. A reader
      gets the sender and the text back, and cannot mistake it for a fortune report. */
  function NoticeReply(sender: int, text: string): (r: seq<Part>)
    ensures ReadNotice(r) == Some((sender, text))
    ensures ReadFortuneReply(r).None?
  {
    [At(sender), Plain(" "), Plain(text)]
  }

  /** What a reader of a notice sees: the mentioned member and the text after the space. */
  function ReadNotice(parts: seq<Part>): Option<(int, string)>
  {
    if |parts| == 3 && parts[0].At? && parts[1] == Plain(" ") && parts[2].Plain?
    then Some((parts[0].target, parts[2].text))
    else None
  }

  function ReadScoreLine(caption: string, part: Part): Option<nat>
  {
    if !part.Plain? then None
    else
      match Text.StripPrefix(caption, part.text)
      case None => None
      case Some(rest) =>
        match Text.StripSuffix(PercentEnd, rest)
        case None => None
        case Some(digits) => Decimal.ParseNat(digits)
  }

  lemma ScoreLineReadsBack(caption: string, score: Percent)
    ensures ReadScoreLine(caption, Plain(ScoreLine(caption, score))) == Some(score as nat)
  {
    var n := Decimal.NatToString(score);
    assert ScoreLine(caption, score) == caption + (n + PercentEnd);
    assert Text.StripPrefix(caption, ScoreLine(caption, score)) == Some(n + PercentEnd);
    assert Text.StripSuffix(PercentEnd, n + PercentEnd) == Some(n);
    Decimal.ParseNatRoundTrip(score);
  }

  /** What a reader of a fortune report sees: the mentioned member, the scores in the
      order (wealth, romance, school), and the closing text. */
  function ReadFortuneReply(parts: seq<Part>): Option<(int, (nat, nat, nat), string)>
  {
    if |parts| != 7 || !parts[0].At? || parts[1] != Plain(" ") || parts[2] != Plain(Header) || !parts[6].Plain? then None
    else
      match (ReadScoreLine(WealthLabel, parts[3]), ReadScoreLine(RomanceLabel, parts[4]), ReadScoreLine(SchoolLabel, parts[5]))
      case (Some(w), Some(r), Some(s)) => Some((parts[0].target, (w, r, s), parts[6].text))
      case _ => None
  }

  /** The report mentions the sender, shows wealth, romance and school (an order unlike the
      prompt's), each with a trailing "%", and ends with the AI's text unchanged. */
  lemma FortuneReplyReadsBack(d: LuckDay, result: string)
    ensures ReadFortuneReply(FortuneReply(d, result)) ==
      Some((d.sender, (d.wealthFortune as nat, d.romanceFortune as nat, d.schoolFortune as nat), result))
  {
    ScoreLineReadsBack(WealthLabel, d.wealthFortune);
    ScoreLineReadsBack(RomanceLabel, d.romanceFortune);
    ScoreLineReadsBack(SchoolLabel, d.schoolFortune);
  }

  // ---------------------------------------------------------------- the handler

  /** getResponse: one chat call; an I/O failure becomes a RequestException, and a reply that
      does not decode ends in an uncaught exception. Returns the requests issued and the result text. */
  function GetResponse(svc: Services, messages: seq<Message>, sender: int): (r: (seq<HttpRequest>, Attempt<string>))
    ensures r.0 == SendBaiduRequest(svc.baidu, svc.config, messages, sender, svc.net, svc.accessToken).requests
    ensures var ex := SendBaiduRequest(svc.baidu, svc.config, messages, sender, svc.net, svc.accessToken);
      && (ex.response.Err? && ex.response.fault == IoFault ==> r.1 == Threw(RequestException(svc.msgs.requestError)))
      && (ex.response.Err? && ex.response.fault == UncheckedFault ==> r.1 == Threw(Unchecked))
      && (r.1.Done? <==> ex.response.Ok? && svc.chatResult(ex.response.value).Some?)
      && (r.1.Done? ==> Some(r.1.value) == svc.chatResult(ex.response.value))
      && (ex.response.Ok? && svc.chatResult(ex.response.value).None? ==> r.1 == Threw(Unchecked))
  {
    var ex := SendBaiduRequest(svc.baidu, svc.config, messages, sender, svc.net, svc.accessToken);
    match ex.response
    case Err(IoFault) => (ex.requests, Threw(RequestException(svc.msgs.requestError)))
    case Err(UncheckedFault) => (ex.requests, Threw(Unchecked))
    case Ok(json) =>
      match svc.chatResult(json)
      case None => (ex.requests, Threw(Unchecked))
      case Some(text) => (ex.requests, Done(text))
  }

  /** luckyDay: nothing for an unauthorised sender; a duplicate-use notice for a sender who
      already asked today; otherwise the fortune report built from the draws and the AI reply. */
  function HandleLuckyDay(sender: int, authorised: bool, firstToday: bool, draws: Draws, svc: Services): (r: Handled)
    ensures !authorised ==> r == Handled(None, [], None)
    ensures authorised && !firstToday ==>
      r == Handled(Some([At(sender), Plain(" "), Plain(svc.msgs.duplicateError)]), [], None)
    ensures r.sent.Some? <==> authorised && r.thrown.None?
    ensures authorised && firstToday && svc.botInfo.Err? ==> r.requests == [] && r.sent.None?
    ensures authorised && firstToday && svc.botInfo.Err? && svc.botInfo.fault == IoFault ==>
      r.thrown == Some(DataLoadException(svc.msgs.botInfoLoadError))
    ensures |r.requests| <= 2
  {
    if !authorised then Handled(None, [], None)
    else if !firstToday then Handled(Some(NoticeReply(sender, svc.msgs.duplicateError)), [], None)
    else
      var d := LuckDay(sender, draws.romance, draws.school, draws.wealth);
      match CreateMessages(svc.botInfo, d, svc.msgs)
      case Threw(e) => Handled(None, [], Some(e))
      case Done(prompt) =>
        var (reqs, res) := GetResponse(svc, prompt, sender);
        match res
        case Threw(e) => Handled(None, reqs, Some(e))
        case Done(text) => Handled(Some(FortuneReply(d, text)), reqs, None)
  }

  /** A failed chat call (an I/O fault anywhere in it) sends nothing and surfaces a RequestException. */
  lemma IoFailureSendsNothing(sender: int, draws: Draws, svc: Services)
    requires svc.botInfo.Ok?
    requires
      var d := LuckDay(sender, draws.romance, draws.school, draws.wealth);
      var prompt := FileManager.ReadBotInfo(svc.botInfo.value) + [Message(User, PromptText(d))];
      SendBaiduRequest(svc.baidu, svc.config, prompt, sender, svc.net, svc.accessToken).response == Err(IoFault)
    ensures HandleLuckyDay(sender, true, true, draws, svc).sent.None?
    ensures HandleLuckyDay(sender, true, true, draws, svc).thrown == Some(RequestException(svc.msgs.requestError))
  {
  }

  /** On success the handler made one token request and one chat request whose body is the
      bot-info turns plus the question, and sent a report that mentions the sender, carries
      the drawn scores and ends with the AI's text. */
  lemma SuccessfulReport(sender: int, draws: Draws, svc: Services)
    requires HandleLuckyDay(sender, true, true, draws, svc).sent.Some?
    ensures var r := HandleLuckyDay(sender, true, true, draws, svc);
      && svc.botInfo.Ok? && |r.requests| == 2
      && r.requests[1].body.Some? && r.requests[1].body.value.JsonBody?
      && r.requests[1].body.value.chat.messages[..|svc.botInfo.value|] == FileManager.ReadBotInfo(svc.botInfo.value)
      && |r.requests[1].body.value.chat.messages| == |svc.botInfo.value| + 1
      && ReadFortuneReply(r.sent.value).Some?
      && ReadFortuneReply(r.sent.value).value.0 == sender
      && ReadFortuneReply(r.sent.value).value.1 == (draws.wealth as nat, draws.romance as nat, draws.school as nat)
  ensures var d := LuckDay(sender, draws.romance, draws.school, draws.wealth);
    var r := HandleLuckyDay(sender, true, true, draws, svc);
    && svc.botInfo.Ok? && |r.requests| == 2
    && r.requests[1].body == Some(JsonBody(CreateBaiduRequestBody(
         FileManager.ReadBotInfo(svc.botInfo.value) + [Message(User, PromptText(d))], sender)))
    && svc.net(r.requests[1]).Ok?
    && svc.chatResult(svc.net(r.requests[1]).value).Some?
    && r.sent == Some(FortuneReply(d, svc.chatResult(svc.net(r.requests[1]).value).value))
  {
    var d := LuckDay(sender, draws.romance, draws.school, draws.wealth);
    var r := HandleLuckyDay(sender, true, true, draws, svc);
    var prompt := CreateMessages(svc.botInfo, d, svc.msgs).value;
    var (reqs, res) := GetResponse(svc, prompt, sender);
    assert r.sent == Some(FortuneReply(d, res.value));
    FortuneReplyReadsBack(d, res.value);
  }
}
