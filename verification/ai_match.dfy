/** The AI route (app/api/ai-match/route.ts): the `action` field selects a
    match or a chat; every other field of the body is handed to the chosen
    helper, whose thrown error becomes a 500 reply. */
module AiMatch {
  import opened Wrappers
  import opened OpenAi

  const InvalidActionMessage := "Invalid action"

  /** The JSON body: `action` and the fields the two helpers read. */
  datatype Request = Request(
    action: Option<string>,
    profile: MatchRequest,
    conversationHistory: seq<ChatMessage>,
    userMessage: string)

  datatype Body =
    | Matched(result: MatchResponse)
    | Responded(response: string)
    | Failed(error: string)

  datatype Response = Response(status: nat, body: Body)

  /** POST /api/ai-match; `complete` is the completion service and
      `parseMatch` what JSON.parse makes of a match reply. */
  function Post(req: Request, complete: Completion -> Result<Option<string>, string>,
                parseMatch: string -> Result<MatchResponse, string>): (resp: Response)
    ensures resp.status == 400 <==> req.action != Some("match") && req.action != Some("chat")
    ensures resp.status == 200 || resp.status == 400 || resp.status == 500
    ensures resp.status == 200 <==> !resp.body.Failed?
    ensures resp.body.Matched? ==> req.action == Some("match")
    ensures resp.body.Responded? ==> req.action == Some("chat")
  {
    if req.action == Some("match") then
      var m := GetAIMatch(req.profile, complete, parseMatch);
      if m.Failure? then Response(500, Failed(m.error)) else Response(200, Matched(m.value))
    else if req.action == Some("chat") then
      var c := ChatWithAI(req.conversationHistory, req.userMessage, complete);
      if c.Failure? then Response(500, Failed(c.error)) else Response(200, Responded(c.value))
    else
      Response(400, Failed(InvalidActionMessage))
  }

  /** The completion requests one call of the route makes: none for an
      unknown action, one otherwise. */
  function Calls(req: Request): (calls: seq<Completion>)
    ensures |calls| <= 1
    ensures calls == [] <==> req.action != Some("match") && req.action != Some("chat")
  {
    if req.action == Some("match") then [MatchCall(req.profile)]
    else if req.action == Some("chat") then [ChatCall(req.conversationHistory, req.userMessage)]
    else []
  }

  /** The route's reply depends on the service only through the one request
      it makes: two services that agree on that request give the same reply. */
  lemma ReplyDependsOnlyOnCall(req: Request, c1: Completion -> Result<Option<string>, string>,
                               c2: Completion -> Result<Option<string>, string>,
                               parseMatch: string -> Result<MatchResponse, string>)
    requires forall k :: 0 <= k < |Calls(req)| ==> c1(Calls(req)[k]) == c2(Calls(req)[k])
    ensures Post(req, c1, parseMatch) == Post(req, c2, parseMatch)
  {
    if req.action == Some("match") || req.action == Some("chat") {
      assert c1(Calls(req)[0]) == c2(Calls(req)[0]);
    }
  }

  /** A match returns the helper's result as it is, and a chat returns the
      reply text; a thrown error is reported with its message. */
  lemma DispatchesToHelper(req: Request, complete: Completion -> Result<Option<string>, string>,
                           parseMatch: string -> Result<MatchResponse, string>)
    ensures req.action == Some("match") ==>
      var m := GetAIMatch(req.profile, complete, parseMatch);
      Post(req, complete, parseMatch) == (if m.Success? then Response(200, Matched(m.value)) else Response(500, Failed(m.error)))
    ensures req.action == Some("chat") ==>
      var c := ChatWithAI(req.conversationHistory, req.userMessage, complete);
      Post(req, complete, parseMatch) == (if c.Success? then Response(200, Responded(c.value)) else Response(500, Failed(c.error)))
    ensures req.action != Some("match") && req.action != Some("chat") ==>
      Post(req, complete, parseMatch) == Response(400, Failed(InvalidActionMessage))
  {
  }
}
