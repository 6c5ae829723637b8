/**
 * `loginLoop` (app/pages/index/index.js:139-154): while the identity
 * provider does not answer with status "connected", prompt the user to log in
 * again with a fixed permission scope. The provider's answers are given as a
 * finite sequence: the status check's answer, then the answer to each prompt.
 */
module Login {
  const Connected: string := "connected"

  /** A provider response: its status and the user it authenticates. */
  datatype LoginResponse = LoginResponse(status: string, userID: string)

  /**
   * Either the loop settled on a connected response after `prompts` login
   * prompts, or the answers ran out while a prompt is still pending.
   */
  datatype LoginOutcome = LoggedIn(response: LoginResponse, prompts: nat) | Waiting(prompts: nat)

  /**
   * The loop yields the first connected response, and only a connected one;
   * every earlier response led to one more prompt. When no response is
   * connected, every response led to a prompt and the loop is still waiting.
   */
  function LoginLoop(first: LoginResponse, answers: seq<LoginResponse>): (r: LoginOutcome)
    ensures var all := [first] + answers;
      r.LoggedIn? ==> r.prompts < |all| && r.response == all[r.prompts] && r.response.status == Connected
    ensures var all := [first] + answers;
      r.LoggedIn? ==> forall i :: 0 <= i < r.prompts ==> all[i].status != Connected
    ensures var all := [first] + answers;
      r.Waiting? <==> forall i :: 0 <= i < |all| ==> all[i].status != Connected
    ensures r.Waiting? ==> r.prompts == |answers| + 1
    decreases |answers|
  {
    if first.status == Connected then LoggedIn(first, 0)
    else if |answers| == 0 then Waiting(1)
    else
      var rest := LoginLoop(answers[0], answers[1..]);
      assert [answers[0]] + answers[1..] == answers;
      assert forall i :: 1 <= i < |answers| + 1 ==> ([first] + answers)[i] == answers[i - 1];
      match rest
      case LoggedIn(response, k) => LoggedIn(response, k + 1)
      case Waiting(k) => Waiting(k + 1)
  }

  /**
   * Once a connected response has arrived no further prompt is made, so
   * answers the provider would have given later play no part.
   */
  lemma {:induction false} LaterAnswersIgnored(first: LoginResponse, answers: seq<LoginResponse>, later: seq<LoginResponse>)
    requires LoginLoop(first, answers).LoggedIn?
    ensures LoginLoop(first, answers + later) == LoginLoop(first, answers)
    decreases |answers|
  {
    if first.status != Connected {
      assert |answers| > 0;
      assert (answers + later)[1..] == answers[1..] + later;
      LaterAnswersIgnored(answers[0], answers[1..], later);
    }
  }
}
