/** The AI helpers of utils/openai.ts: prompt assembly for matching and for
    proof verification, the chat message list, and the handling of the
    completion's content. The completion service is a function from the
    request to the content of its first choice (`None` for null) or to the
    error it throws; what JSON.parse makes of a non-empty reply is another
    such function. Neither the replies nor their parsing are validated. */
module OpenAi {
  import opened Wrappers
  import opened JsText

  const Model := "gpt-4-turbo-preview"
  const SystemInstruction := "You are a helpful AI assistant for a DAO collaboration platform. Help users find projects, complete tasks, and collaborate with others."

  datatype Role = SystemRole | UserRole | AssistantRole

  datatype ChatMessage = ChatMessage(role: Role, content: string)

  /** One chat-completion request; `jsonMode` is `response_format: json_object`. */
  datatype Completion = Completion(model: string, messages: seq<ChatMessage>, jsonMode: bool)

  datatype Project = Project(id: string, name: string, description: string, skillsNeeded: string)

  datatype MatchRequest = MatchRequest(userAlias: string, interests: string, skills: string, availableProjects: seq<Project>)

  /** The parsed reply, cast to MatchResponse without checking a field: any
      of them may be missing. */
  datatype MatchResponse = MatchResponse(
    projectId: Option<string>,
    projectName: Option<string>,
    reasoning: Option<string>,
    suggestedTask: Option<string>,
    estimatedReward: Option<int>)

  /** What `JSON.parse('{}')` gives as a MatchResponse. */
  const EmptyMatch := MatchResponse(None, None, None, None, None)

  datatype Verdict = Verdict(verified: Option<bool>, feedback: Option<string>)

  const EmptyVerdict := Verdict(None, None)

  /** `JSON.parse(content || '{}')`: an absent or empty content is read as the
      empty object; any other text is handed to the parser as it is. */
  function ParseReply<T>(content: Option<string>, empty: T, parse: string -> Result<T, string>): (r: Result<T, string>)
    ensures !Truthy(content) || content == Some("{}") ==> r == Success(empty)
    ensures Truthy(content) && content.value != "{}" ==> r == parse(content.value)
  {
    var text := OrElse(content, "{}");
    if text == "{}" then Success(empty) else parse(text)
  }

  // ---------------------------------------------------------------------
  // Matching

  const MatchIntro := "You are an AI matchmaker for a DAO collaboration platform. \n\nUser Profile:\n- Alias: "
  const InterestsLabel := "\n- Interests: "
  const SkillsLabel := "\n- Skills: "
  const ProjectsLabel := "\n\nAvailable Projects:\n"
  const MatchOutro := "\n\nTask: Match this user with the BEST project based on their interests and skills. Suggest a specific first task they can complete.\n\nRespond in JSON format:\n{\n  \"projectId\": \"project_id\",\n  \"projectName\": \"project_name\",\n  \"reasoning\": \"why this is a good match\",\n  \"suggestedTask\": \"specific task description\",\n  \"estimatedReward\": 100\n}"

  function ProjectLine(p: Project): string
  {
    "- " + p.name + ": " + p.description + " (Needs: " + p.skillsNeeded + ")"
  }

  function ProjectLines(projects: seq<Project>): (lines: seq<string>)
    ensures |lines| == |projects|
    ensures forall i :: 0 <= i < |projects| ==> lines[i] == ProjectLine(projects[i])
  {
    seq(|projects|, i requires 0 <= i < |projects| => ProjectLine(projects[i]))
  }

  /** The project list of the prompt: one line per project, joined by newlines. */
  function ProjectList(projects: seq<Project>): string
  {
    Join(ProjectLines(projects), "\n")
  }

  /** The prompt, built as the template reads: the profile, then the
      project list, then the instructions and the expected JSON shape. */
  function MatchPrompt(r: MatchRequest): (prompt: string)
    ensures StartsWith(prompt, MatchIntro)
    ensures OccursAt(prompt, r.userAlias, |MatchIntro|)
    ensures EndsWith(prompt, MatchOutro)
  {
    ContainsMiddle(MatchIntro, r.userAlias, AfterAlias(r));
    EndsWithAppend(ProjectsLabel + ProjectList(r.availableProjects), MatchOutro, MatchOutro);
    EndsWithAppend(SkillsLabel + r.skills, AfterSkills(r), MatchOutro);
    EndsWithAppend(InterestsLabel + r.interests, AfterInterests(r), MatchOutro);
    EndsWithAppend(MatchIntro + r.userAlias, AfterAlias(r), MatchOutro);
    MatchIntro + r.userAlias + AfterAlias(r)
  }

  function AfterAlias(r: MatchRequest): string
  {
    InterestsLabel + r.interests + AfterInterests(r)
  }

  function AfterInterests(r: MatchRequest): string
  {
    SkillsLabel + r.skills + AfterSkills(r)
  }

  function AfterSkills(r: MatchRequest): string
  {
    ProjectsLabel + ProjectList(r.availableProjects) + MatchOutro
  }

  /** The one request `getAIMatch` makes: a JSON-mode completion whose only
      message is the prompt, from the user. */
  function MatchCall(r: MatchRequest): Completion
  {
    Completion(Model, [ChatMessage(UserRole, MatchPrompt(r))], true)
  }

  /** `getAIMatch`: a failed completion is passed on; an absent or empty
      reply becomes a match with every field missing; any other reply is
      returned exactly as the parser read it, with no field checked. */
  function GetAIMatch(r: MatchRequest, complete: Completion -> Result<Option<string>, string>,
                      parse: string -> Result<MatchResponse, string>): (m: Result<MatchResponse, string>)
    ensures complete(MatchCall(r)).Failure? ==> m == Failure(complete(MatchCall(r)).error)
    ensures complete(MatchCall(r)) == Success(None) || complete(MatchCall(r)) == Success(Some("")) ==> m == Success(EmptyMatch)
    ensures complete(MatchCall(r)).Success? && Truthy(complete(MatchCall(r)).value) && complete(MatchCall(r)).value.value != "{}" ==>
      m == parse(complete(MatchCall(r)).value.value)
  {
    var reply := complete(MatchCall(r));
    if reply.Failure? then Failure(reply.error) else ParseReply(reply.value, EmptyMatch, parse)
  }

  predicate NoNewline(p: Project)
  {
    '\n' !in p.name && '\n' !in p.description && '\n' !in p.skillsNeeded
  }

  /** Each project has exactly one line in the list, in input order: cutting
      the list at newlines gives back one line per project (as long as no
      project field itself holds a newline). */
  lemma ProjectListLines(projects: seq<Project>)
    requires |projects| >= 1
    requires forall i :: 0 <= i < |projects| ==> NoNewline(projects[i])
    ensures Split(ProjectList(projects), '\n') == ProjectLines(projects)
  {
    var lines := ProjectLines(projects);
    forall i | 0 <= i < |lines| ensures '\n' !in lines[i] {
      var p := projects[i];
      assert lines[i] == "- " + p.name + ": " + p.description + " (Needs: " + p.skillsNeeded + ")";
    }
    SplitJoin(lines, '\n');
  }

  /** The prompt quotes the user's alias, interests and skills verbatim. */
  lemma MatchPromptQuotesProfile(r: MatchRequest)
    ensures Contains(MatchPrompt(r), r.userAlias)
    ensures Contains(MatchPrompt(r), r.interests)
    ensures Contains(MatchPrompt(r), r.skills)
  {
    ContainsMiddle(MatchIntro, r.userAlias, AfterAlias(r));
    ContainsMiddle(InterestsLabel, r.interests, AfterInterests(r));
    ContainsInSuffix(MatchIntro + r.userAlias, AfterAlias(r), r.interests);
    ContainsMiddle(SkillsLabel, r.skills, AfterSkills(r));
    ContainsInSuffix(InterestsLabel + r.interests, AfterInterests(r), r.skills);
    ContainsInSuffix(MatchIntro + r.userAlias, AfterAlias(r), r.skills);
  }

  /** The prompt names every available project, with its description and
      the skills it needs. */
  lemma MatchPromptListsProjects(r: MatchRequest, i: nat)
    requires i < |r.availableProjects|
    ensures Contains(MatchPrompt(r), ProjectLine(r.availableProjects[i]))
  {
    var line := ProjectLine(r.availableProjects[i]);
    JoinContainsPart(ProjectLines(r.availableProjects), "\n", i);
    ContainsWithin(ProjectsLabel, ProjectList(r.availableProjects), MatchOutro, line);
    ContainsInSuffix(SkillsLabel + r.skills, AfterSkills(r), line);
    ContainsInSuffix(InterestsLabel + r.interests, AfterInterests(r), line);
    ContainsInSuffix(MatchIntro + r.userAlias, AfterAlias(r), line);
  }

  // ---------------------------------------------------------------------
  // Verification of a proof of work

  const VerifyIntro := "You are an AI verifier for a DAO platform.\n\nTask: "
  const ProofLabel := "\nProof submitted: "
  const ImageLabel := "Image URL: "
  const VerifyOutro := "\n\nDetermine if the proof demonstrates task completion. Be reasonable but ensure quality.\n\nRespond in JSON format:\n{\n  \"verified\": true/false,\n  \"feedback\": \"explanation of your decision\"\n}"

  /** The image line, present only when a non-empty URL is given. */
  function ImageLine(proofImageUrl: Option<string>): string
  {
    if Truthy(proofImageUrl) then ImageLabel + proofImageUrl.value else ""
  }

  function VerifyPrefix(taskDescription: string, proofText: string): string
  {
    VerifyIntro + taskDescription + ProofLabel + proofText + "\n"
  }

  function VerifyPrompt(taskDescription: string, proofText: string, proofImageUrl: Option<string>): string
  {
    VerifyPrefix(taskDescription, proofText) + ImageLine(proofImageUrl) + VerifyOutro
  }

  /** The one request `verifyTaskCompletion` makes: a JSON-mode completion
      whose only message is the prompt, from the user. */
  function VerifyCall(taskDescription: string, proofText: string, proofImageUrl: Option<string>): Completion
  {
    Completion(Model, [ChatMessage(UserRole, VerifyPrompt(taskDescription, proofText, proofImageUrl))], true)
  }

  /** `verifyTaskCompletion`: the reply is parsed like the match reply and
      not validated; an absent or empty reply gives a verdict with neither
      field, so `verified` is undefined rather than false. */
  function VerifyTaskCompletion(taskDescription: string, proofText: string, proofImageUrl: Option<string>,
                                complete: Completion -> Result<Option<string>, string>,
                                parse: string -> Result<Verdict, string>): (v: Result<Verdict, string>)
    ensures var reply := complete(VerifyCall(taskDescription, proofText, proofImageUrl));
      && (reply.Failure? ==> v == Failure(reply.error))
      && (reply == Success(None) || reply == Success(Some("")) ==> v == Success(EmptyVerdict))
      && (reply.Success? && Truthy(reply.value) && reply.value.value != "{}" ==> v == parse(reply.value.value))
  {
    var reply := complete(VerifyCall(taskDescription, proofText, proofImageUrl));
    if reply.Failure? then Failure(reply.error) else ParseReply(reply.value, EmptyVerdict, parse)
  }

  /** Giving an image URL inserts exactly the line "Image URL: <url>" into the
      prompt without one, right after the proof; an empty URL counts as none. */
  lemma VerifyPromptImageLine(taskDescription: string, proofText: string, url: string)
    ensures VerifyPrompt(taskDescription, proofText, Some("")) == VerifyPrompt(taskDescription, proofText, None)
    ensures var without := VerifyPrompt(taskDescription, proofText, None);
      var k := |VerifyPrefix(taskDescription, proofText)|;
      url != "" ==>
        k <= |without| &&
        VerifyPrompt(taskDescription, proofText, Some(url)) == without[..k] + "Image URL: " + url + without[k..]
  {
    var prefix := VerifyPrefix(taskDescription, proofText);
    var without := VerifyPrompt(taskDescription, proofText, None);
    assert ImageLine(None) == "" && ImageLine(Some("")) == "";
    assert prefix + "" == prefix;
    assert without == prefix + VerifyOutro;
    assert without[..|prefix|] == prefix;
    assert without[|prefix|..] == VerifyOutro;
    if url != "" {
      assert ImageLine(Some(url)) == ImageLabel + url;
      assert VerifyPrompt(taskDescription, proofText, Some(url)) == prefix + (ImageLabel + url) + VerifyOutro;
    }
  }

  // ---------------------------------------------------------------------
  // Chat

  /** The system instruction, then the history as given, then the new
      message from the user: two longer than the history, which can be cut
      back out unchanged. */
  function ChatMessages(history: seq<ChatMessage>, userMessage: string): (ms: seq<ChatMessage>)
    ensures |ms| == |history| + 2
    ensures ms[0] == ChatMessage(SystemRole, SystemInstruction)
    ensures ms[1..|ms| - 1] == history
    ensures ms[|ms| - 1] == ChatMessage(UserRole, userMessage)
  {
    var ms := [ChatMessage(SystemRole, SystemInstruction)] + history + [ChatMessage(UserRole, userMessage)];
    assert ms[1..|ms| - 1] == history;
    ms
  }

  /** The one request `chatWithAI` makes: a plain completion over the message list. */
  function ChatCall(history: seq<ChatMessage>, userMessage: string): Completion
  {
    Completion(Model, ChatMessages(history, userMessage), false)
  }

  /** `chatWithAI`: the reply's text, "" when it is null or empty, or the
      service's error. */
  function ChatWithAI(history: seq<ChatMessage>, userMessage: string,
                      complete: Completion -> Result<Option<string>, string>): (t: Result<string, string>)
    ensures var reply := complete(ChatCall(history, userMessage));
      && (reply.Failure? <==> t.Failure?)
      && (reply.Failure? ==> t.error == reply.error)
      && (reply.Success? && !Truthy(reply.value) ==> t == Success(""))
      && (reply.Success? && Truthy(reply.value) ==> t == Success(reply.value.value))
  {
    var reply := complete(ChatCall(history, userMessage));
    if reply.Failure? then Failure(reply.error) else Success(OrElse(reply.value, ""))
  }
}
