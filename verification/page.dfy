/** The client's handlers (app/page.tsx) as a state machine over the page's
    state: the screen, the signed-up user and their client-side balance, the
    message list, the chat input, the accepted match and the check-in token.
    Each handler is a method; the clock (`Date.now()`) is a parameter, and
    the server's reply to a request is a parameter too: `Failure` when the
    fetch or the reading of its JSON throws, `Success(response)` otherwise.
    Rendering, the loading flag and alerts are not part of this model. */
module Page {
  import opened Wrappers
  import opened JsText
  import OpenAi
  import AiMatch
  import MintNft
  import CheckIn

  datatype Screen = Landing | Signup | Dashboard | Chatbot | Chatroom | Qr

  /** A JavaScript number as the client holds it: adding `undefined` to a
      number gives NaN, and NaN stays NaN. */
  datatype JsNum = Num(n: int) | NaN

  /** `a + b` where `b` may be undefined. */
  function AddNum(a: JsNum, b: Option<int>): (r: JsNum)
    ensures r.Num? <==> a.Num? && b.Some?
    ensures r.Num? ==> r.n - a.n == b.value
  {
    if a.Num? && b.Some? then Num(a.n + b.value) else NaN
  }

  /** `${x}` of a number that may be undefined. */
  function ShowInt(x: Option<int>): string
  {
    if x.Some? then IntString(x.value) else "undefined"
  }

  datatype User = User(alias: string, interests: string, skills: string, walletAddress: string, csBalance: JsNum)

  /** A chat message; its timestamp is display-only and not modelled. */
  datatype Message = Message(id: string, sender: string, content: string)

  /** The accepted match, copied field by field from the unvalidated AI reply,
      so any field may be missing. */
  datatype Match = Match(projectId: Option<string>, projectName: Option<string>, task: Option<string>, reward: Option<int>)

  const AssistantName := "AI Assistant"
  const SystemName := "System"
  const VerifierName := "AI Verifier"
  const WalletPrefix := "0x"
  const DefaultProjectId := "1"

  /** The fixed catalogue the client offers the matcher. */
  const MockProjects: seq<OpenAi.Project> := [
    OpenAi.Project("1", "Space Apps DAO", "Building apps for space exploration", "React, Design, AI"),
    OpenAi.Project("2", "Art Collective", "Digital art marketplace", "Design, Marketing"),
    OpenAi.Project("3", "Climate Action", "Environmental sustainability projects", "Data Science, Research"),
    OpenAi.Project("4", "Education DAO", "Decentralized learning platform", "Teaching, Development")]

  function Greeting(alias: string): string
  {
    "Hey " + alias + ", ready to join a DAO? I'll help you find the perfect project match!"
  }

  function MatchAnnouncement(m: OpenAi.MatchResponse): string
  {
    "\U{1F3AF} Perfect match found!\n\n**" + Show(m.projectName) + "**\n\n" + Show(m.reasoning)
    + "\n\n**Your first task:** " + Show(m.suggestedTask) + "\n\n**Reward:** " + ShowInt(m.estimatedReward)
    + " CS tokens\n\nReady to accept?"
  }

  function MatchOf(m: OpenAi.MatchResponse): Match
  {
    Match(m.projectId, m.projectName, m.suggestedTask, m.estimatedReward)
  }

  /** `currentMatch?.projectName`, which is undefined without a match. */
  function MatchedProjectName(m: Option<Match>): Option<string>
  {
    if m.Some? then m.value.projectName else None
  }

  function Welcome(m: Option<Match>): string
  {
    "Welcome to the " + Show(MatchedProjectName(m)) + " chat room! Share your progress here."
  }

  function MintedNotice(reward: Option<int>, explorerUrl: string): string
  {
    "\U{2705} Task verified! Minted " + ShowInt(reward) + " CS tokens and milestone NFT!\n\nView your NFT: " + explorerUrl
  }

  /** `${user?.alias}-${Date.now()}`: the token the check-in route decodes. */
  function CheckInToken(alias: Option<string>, now: nat): (token: string)
    ensures |token| == |Show(alias)| + 1 + |DecimalString(now)|
    ensures token[..|Show(alias)|] == Show(alias)
    ensures token[|Show(alias)|] == '-'
    ensures token[|Show(alias)| + 1..] == DecimalString(now)
  {
    Show(alias) + "-" + DecimalString(now)
  }

  /** The role a stored message is replayed with: only the assistant's own
      messages are the assistant's. */
  function RoleOf(sender: string): (role: OpenAi.Role)
    ensures role == OpenAi.AssistantRole <==> sender == AssistantName
    ensures role != OpenAi.SystemRole
  {
    if sender == AssistantName then OpenAi.AssistantRole else OpenAi.UserRole
  }

  /** The conversation history sent with a chat message. */
  function ChatHistory(messages: seq<Message>): (history: seq<OpenAi.ChatMessage>)
    ensures |history| == |messages|
    ensures forall i :: 0 <= i < |messages| ==>
      history[i] == OpenAi.ChatMessage(RoleOf(messages[i].sender), messages[i].content)
  {
    seq(|messages|, i requires 0 <= i < |messages| => OpenAi.ChatMessage(RoleOf(messages[i].sender), messages[i].content))
  }

  const NoProfile := OpenAi.MatchRequest("", "", "", [])

  /** The bodies the handlers post. */
  function MatchRequestOf(u: User): AiMatch.Request
  {
    AiMatch.Request(Some("match"), OpenAi.MatchRequest(u.alias, u.interests, u.skills, MockProjects), [], "")
  }

  function ChatRequestOf(messages: seq<Message>, text: string): AiMatch.Request
  {
    AiMatch.Request(Some("chat"), NoProfile, ChatHistory(messages), text)
  }

  function MintRequestOf(u: User, m: Match): MintNft.Request
  {
    MintNft.Request(Some(u.walletAddress), m.projectName, m.task, Some([u.alias]))
  }

  function ScanRequestOf(u: User, m: Option<Match>, qrData: string): CheckIn.Request
  {
    var projectId := if m.Some? then m.value.projectId else None;
    CheckIn.Request(Some(u.walletAddress), Some(OrElse(projectId, DefaultProjectId)), Some(qrData))
  }

  class App {
    var currentScreen: Screen
    var user: Option<User>
    var messages: seq<Message>
    var chatInput: string
    var currentMatch: Option<Match>
    var qrData: string

    /** A match is only ever held by a signed-up user, and every wallet
        address is a "0x" mock address. */
    ghost predicate Valid()
      reads this
    {
      && (currentMatch.Some? ==> user.Some?)
      && (user.Some? ==> StartsWith(user.value.walletAddress, WalletPrefix))
    }

    constructor ()
      ensures Valid()
      ensures currentScreen == Landing && user == None && messages == [] && chatInput == ""
      ensures currentMatch == None && qrData == ""
    {
      currentScreen := Landing;
      user := None;
      messages := [];
      chatInput := "";
      currentMatch := None;
      qrData := "";
    }

    /** `handleSignup`: a new user with a zero balance, greeted by the
        assistant; `walletSuffix` stands for the random part of the mock
        wallet address. */
    method SignUp(alias: string, interests: string, skills: string, walletSuffix: string)
      requires Valid()
      modifies this
      ensures Valid()
      ensures user == Some(User(alias, interests, skills, WalletPrefix + walletSuffix, Num(0)))
      ensures messages == [Message("1", AssistantName, Greeting(alias))]
      ensures currentScreen == Dashboard
      ensures chatInput == old(chatInput) && currentMatch == old(currentMatch) && qrData == old(qrData)
    {
      user := Some(User(alias, interests, skills, WalletPrefix + walletSuffix, Num(0)));
      messages := [Message("1", AssistantName, Greeting(alias))];
      currentScreen := Dashboard;
    }

    /** `handleFindMatches`: asks the matcher about the user and the mock
        catalogue; a successful match is announced and becomes the current
        match. Any other reply changes nothing but the screen. */
    method FindMatches(now: nat, reply: Result<AiMatch.Response, string>) returns (sent: Option<AiMatch.Request>)
      requires Valid()
      modifies this
      ensures Valid()
      ensures old(user).None? ==> sent == None && unchanged(this)
      ensures old(user).Some? ==> sent == Some(MatchRequestOf(old(user).value)) && currentScreen == Chatbot
      ensures user == old(user) && chatInput == old(chatInput) && qrData == old(qrData)
      ensures old(user).Some? && reply.Success? && reply.value.body.Matched? ==>
        && messages == old(messages) + [Message(DecimalString(now), AssistantName, MatchAnnouncement(reply.value.body.result))]
        && currentMatch == Some(MatchOf(reply.value.body.result))
      ensures !(reply.Success? && reply.value.body.Matched?) ==>
        messages == old(messages) && currentMatch == old(currentMatch)
    {
      if user.None? {
        return None;
      }
      currentScreen := Chatbot;
      sent := Some(MatchRequestOf(user.value));
      if reply.Success? && reply.value.body.Matched? {
        var m := reply.value.body.result;
        messages := messages + [Message(DecimalString(now), AssistantName, MatchAnnouncement(m))];
        currentMatch := Some(MatchOf(m));
      }
    }

    /** `handleAcceptMatch`: to the chat room, whose history starts afresh
        with one welcome message from the system. */
    method AcceptMatch(now: nat)
      requires Valid()
      modifies this
      ensures Valid()
      ensures currentScreen == Chatroom
      ensures messages == [Message(DecimalString(now), SystemName, Welcome(old(currentMatch)))]
      ensures user == old(user) && chatInput == old(chatInput) && currentMatch == old(currentMatch) && qrData == old(qrData)
    {
      currentScreen := Chatroom;
      messages := [Message(DecimalString(now), SystemName, Welcome(currentMatch))];
    }

    /** The chat input's `onChange`. */
    method TypeChatInput(text: string)
      requires Valid()
      modifies this
      ensures Valid()
      ensures chatInput == text
      ensures currentScreen == old(currentScreen) && user == old(user) && messages == old(messages)
      ensures currentMatch == old(currentMatch) && qrData == old(qrData)
    {
      chatInput := text;
    }

    /** `handleSendMessage`: blank input or no user does nothing. Otherwise
        the input is posted as the user's message and cleared, and the
        history sent is the list as it was before that message; a chat
        reply is appended as the assistant's (at time `replyAt`). */
    method SendMessage(now: nat, replyAt: nat, reply: Result<AiMatch.Response, string>)
      returns (sent: Option<AiMatch.Request>)
      requires Valid()
      modifies this
      ensures Valid()
      ensures sent.None? <==> IsBlank(old(chatInput)) || old(user).None?
      ensures sent.None? ==> unchanged(this)
      ensures sent.Some? ==>
        && sent.value == ChatRequestOf(old(messages), old(chatInput))
        && chatInput == ""
        && var posted := old(messages) + [Message(DecimalString(now), old(user).value.alias, old(chatInput))];
           if reply.Success? && reply.value.body.Responded?
           then messages == posted + [Message(DecimalString(replyAt), AssistantName, reply.value.body.response)]
           else messages == posted
      ensures currentScreen == old(currentScreen) && user == old(user)
      ensures currentMatch == old(currentMatch) && qrData == old(qrData)
    {
      TrimEmptyIffBlank(chatInput);
      if Trim(chatInput) == [] || user.None? {
        return None;
      }
      var text := chatInput;
      sent := Some(ChatRequestOf(messages, text));
      messages := messages + [Message(DecimalString(now), user.value.alias, text)];
      chatInput := "";
      if reply.Success? && reply.value.body.Responded? {
        messages := messages + [Message(DecimalString(replyAt), AssistantName, reply.value.body.response)];
      }
    }

    /** `handleSubmitProof`: without a user and a match nothing happens.
        Otherwise the milestone is minted for the user alone (the proof text
        is not sent), and a successful mint adds the match's reward to the
        balance and posts the verifier's notice. */
    method SubmitProof(proofText: string, now: nat, reply: Result<MintNft.Response, string>)
      returns (sent: Option<MintNft.Request>)
      requires Valid()
      modifies this
      ensures Valid()
      ensures sent.None? <==> old(user).None? || old(currentMatch).None?
      ensures sent.None? ==> unchanged(this)
      ensures sent.Some? ==> sent.value == MintRequestOf(old(user).value, old(currentMatch).value)
      ensures sent.Some? && reply.Success? && reply.value.body.Minted? ==>
        && user == Some(old(user).value.(csBalance := AddNum(old(user).value.csBalance, old(currentMatch).value.reward)))
        && messages == old(messages) + [Message(DecimalString(now), VerifierName,
                                                MintedNotice(old(currentMatch).value.reward, reply.value.body.explorerUrl))]
      ensures !(reply.Success? && reply.value.body.Minted?) ==> user == old(user) && messages == old(messages)
      ensures currentScreen == old(currentScreen) && chatInput == old(chatInput)
      ensures currentMatch == old(currentMatch) && qrData == old(qrData)
    {
      if user.None? || currentMatch.None? {
        return None;
      }
      var u := user.value;
      var m := currentMatch.value;
      sent := Some(MintRequestOf(u, m));
      if reply.Success? && reply.value.body.Minted? {
        user := Some(u.(csBalance := AddNum(u.csBalance, m.reward)));
        messages := messages + [Message(DecimalString(now), VerifierName, MintedNotice(m.reward, reply.value.body.explorerUrl))];
      }
    }

    /** `handleQRCheckIn`: issue a token for the user at this time and show it. */
    method QRCheckIn(now: nat)
      requires Valid()
      modifies this
      ensures Valid()
      ensures qrData == CheckInToken(if old(user).Some? then Some(old(user).value.alias) else None, now)
      ensures currentScreen == Qr
      ensures user == old(user) && messages == old(messages) && chatInput == old(chatInput)
      ensures currentMatch == old(currentMatch)
    {
      qrData := CheckInToken(if user.Some? then Some(user.value.alias) else None, now);
      currentScreen := Qr;
    }

    /** `handleSimulateScan`: posts the current token for the user's wallet
        and the current match's project (project "1" without one); a
        successful check-in adds the tokens earned to the balance. */
    method SimulateScan(reply: Result<CheckIn.Response, string>) returns (sent: Option<CheckIn.Request>)
      requires Valid()
      modifies this
      ensures Valid()
      ensures old(user).None? ==> sent == None && unchanged(this)
      ensures old(user).Some? ==> sent == Some(ScanRequestOf(old(user).value, old(currentMatch), old(qrData)))
      ensures old(user).Some? && reply.Success? && reply.value.body.CheckedIn? ==>
        user == Some(old(user).value.(csBalance := AddNum(old(user).value.csBalance, Some(reply.value.body.tokensEarned))))
      ensures !(reply.Success? && reply.value.body.CheckedIn?) ==> user == old(user)
      ensures currentScreen == old(currentScreen) && messages == old(messages) && chatInput == old(chatInput)
      ensures currentMatch == old(currentMatch) && qrData == old(qrData)
    {
      if user.None? {
        return None;
      }
      var u := user.value;
      sent := Some(ScanRequestOf(u, currentMatch, qrData));
      if reply.Success? && reply.value.body.CheckedIn? {
        user := Some(u.(csBalance := AddNum(u.csBalance, Some(reply.value.body.tokensEarned))));
      }
    }
  }

  // ---------------------------------------------------------------------
  // The check-in token, issued here and decoded by the route

  /** For an alias without '-', the route reads back exactly the issuing time. */
  lemma TokenRoundTrip(alias: string, now: nat)
    requires '-' !in alias
    ensures CheckIn.TimestampField(CheckInToken(Some(alias), now)) == Some(DecimalString(now))
    ensures CheckIn.CheckInTime(CheckInToken(Some(alias), now)) == Some(now)
  {
    SplitPair(alias, DecimalString(now));
    ParseDecimalString(now);
  }

  /** For an alias with a '-', the route reads the alias's second part as the
      time instead, and the issuing time plays no part. */
  lemma HyphenatedAliasMisread(alias: string, now: nat)
    requires '-' in alias
    ensures CheckIn.TimestampField(alias).Some?
    ensures CheckIn.TimestampField(CheckInToken(Some(alias), now)) == CheckIn.TimestampField(alias)
    ensures CheckIn.CheckInTime(CheckInToken(Some(alias), now)) == ParseInt(CheckIn.TimestampField(alias).value)
  {
    var d := DecimalString(now);
    SplitAppend(alias, d, '-');
    assert alias + "-" + d == alias + ['-'] + d;
    var parts := Split(alias, '-');
    assert |parts| > 1;
    assert Split(alias + "-" + d, '-')[1] == parts[1];
  }

  /** A token issued to a signed-up user is accepted by the route's checks
      exactly while it is at most five minutes old, when the alias has no
      '-' and the reward mint is configured. */
  lemma IssuedTokenAcceptedIffFresh(u: User, m: Option<Match>, issuedAt: nat, now: int, tokenMint: Option<string>)
    requires '-' !in u.alias && StartsWith(u.walletAddress, WalletPrefix) && Truthy(tokenMint)
    ensures CheckIn.Decide(ScanRequestOf(u, m, CheckInToken(Some(u.alias), issuedAt)), tokenMint, now).Issue?
        <==> now - issuedAt <= CheckIn.FreshnessWindowMs
  {
    TokenRoundTrip(u.alias, issuedAt);
    var req := ScanRequestOf(u, m, CheckInToken(Some(u.alias), issuedAt));
    assert CheckIn.FieldsPresent(req);
  }

  /** Cutting "a-b" at '-' gives a and b when neither holds a '-'. */
  lemma SplitPair(a: string, b: string)
    requires '-' !in a && '-' !in b
    ensures Split(a + "-" + b, '-') == [a, b]
  {
    SplitAppend(a, b, '-');
    SplitNoSeparator(a, '-');
    SplitNoSeparator(b, '-');
    assert a + "-" + b == a + ['-'] + b;
  }

  /** An example of the misreading: "mary-jane" gets tokens that never
      expire, because "jane" is not a number. */
  lemma HyphenatedAliasNeverExpires(now: nat, checkedAt: int)
    ensures CheckIn.CheckInTime(CheckInToken(Some("mary-jane"), now)).None?
    ensures !CheckIn.Expired(CheckIn.CheckInTime(CheckInToken(Some("mary-jane"), now)), checkedAt)
  {
    HyphenatedAliasMisread("mary-jane", now);
    MaryJaneField();
    NotANumber();
  }

  /** Another: "bob-1" gets tokens that are always read as issued at
      millisecond 1, so they are refused as expired at every real clock. */
  lemma HyphenatedAliasAlwaysExpired(now: nat, checkedAt: int)
    ensures CheckIn.CheckInTime(CheckInToken(Some("bob-1"), now)) == Some(1)
    ensures CheckIn.Expired(CheckIn.CheckInTime(CheckInToken(Some("bob-1"), now)), checkedAt) <==> checkedAt > 300001
  {
    HyphenatedAliasMisread("bob-1", now);
    BobField();
    assert "1" == DecimalString(1);
    ParseDecimalString(1);
  }

  lemma MaryJaneField()
    ensures CheckIn.TimestampField("mary-jane") == Some("jane")
  {
    SplitPair("mary", "jane");
    assert "mary" + "-" + "jane" == "mary-jane";
  }

  lemma BobField()
    ensures CheckIn.TimestampField("bob-1") == Some("1")
  {
    SplitPair("bob", "1");
    assert "bob" + "-" + "1" == "bob-1";
  }

  lemma NotANumber()
    ensures ParseInt("jane") == None
  {
    assert TrimStart("jane") == "jane";
    assert Unsigned("jane") == "jane";
    assert DigitPrefix("jane", 10) == "";
  }

  /** Each stored message is replayed with its content, in order, and with
      the assistant's role exactly when the assistant sent it. */
  lemma ChatHistoryRoles(messages: seq<Message>, i: nat)
    requires i < |messages|
    ensures ChatHistory(messages)[i].content == messages[i].content
    ensures ChatHistory(messages)[i].role == OpenAi.AssistantRole <==> messages[i].sender == AssistantName
    ensures ChatHistory(messages)[i].role == OpenAi.UserRole <==> messages[i].sender != AssistantName
  {
  }

  /** A chat sends the history before the new message, and the route then
      hands the assistant that history between its instruction and the new
      message: the new text appears once, at the end. */
  lemma ChatRequestFrames(messages: seq<Message>, text: string)
    ensures var req := ChatRequestOf(messages, text);
      var ms := OpenAi.ChatMessages(req.conversationHistory, req.userMessage);
      && |ms| == |messages| + 2
      && ms[1..|ms| - 1] == ChatHistory(messages)
      && ms[|ms| - 1] == OpenAi.ChatMessage(OpenAi.UserRole, text)
  {
  }

  /** The check-in request always names a project: the match's when it has
      one, "1" otherwise. */
  lemma ScanProjectDefault(u: User, m: Option<Match>, qrData: string)
    ensures Truthy(ScanRequestOf(u, m, qrData).projectId)
    ensures m.None? ==> ScanRequestOf(u, m, qrData).projectId == Some(DefaultProjectId)
    ensures m.Some? && Truthy(m.value.projectId) ==> ScanRequestOf(u, m, qrData).projectId == m.value.projectId
  {
  }

  /** The mint request names the user's wallet and the user as the only team
      member, whatever proof was written. */
  lemma MintRequestIgnoresProof(u: User, m: Match)
    ensures MintRequestOf(u, m).recipientAddress == Some(u.walletAddress)
    ensures MintRequestOf(u, m).teamMembers == Some([u.alias])
    ensures MintRequestOf(u, m).projectName == m.projectName && MintRequestOf(u, m).milestone == m.task
  {
  }
}
