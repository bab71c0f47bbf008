/**
 * The HTTP handlers of backend/main.go: `POST /chat` runs Riker's tool
 * detection on the user's message, feeds the tool results (or the bare
 * message) to Bob, and streams Bob's answer; `DELETE /cancel` raises the
 * flag that makes the stream callback ask the library to stop.
 *
 * What the libraries decide is a parameter: the decoded request body,
 * the tool calls Riker's model detects, the execution error, the answer's
 * fragments, and the fragment during which a cancel request arrives.
 */
module ChatServer {

  import opened Wrappers
  import opened Text
  import opened Labels
  import opened Personas
  import ToolExecution

  /**
   * The request body after `json.Unmarshal` into a string map: the entries
   * it decoded (none after a syntax error, the well-typed ones after a type
   * error) and its error, if any.
   */
  datatype RequestBody = RequestBody(data: map<string, string>, err: Option<string>)

  /** `data["message"]`: a missing key reads as "", whether or not decoding failed. */
  function MessageOf(body: RequestBody): (message: string)
    ensures "message" in body.data ==> message == body.data["message"]
    ensures "message" !in body.data ==> message == ""
  {
    if "message" in body.data then body.data["message"] else ""
  }

  /**
   * A tool call of Riker's catalog: `add` (its result is the library's
   * rendering of the float sum) or the handler's own `choose_clone_of_bob`.
   */
  datatype MainToolCall = AddNumbers(renderedSum: string) | InlineChoose(cloneName: string)

  const CloneSuffix := " is a clone of Bob"

  /** The handler's `choose_clone_of_bob`: exact, case-sensitive names; it selects nobody. */
  function InlineChooseCloneOfBob(cloneName: string): string
  {
    if cloneName == "Riker" || cloneName == "Milo" then cloneName + CloneSuffix
    else ToolExecution.UnknownClonePrefix + cloneName
  }

  /** The inline tool vouches for a name exactly when it is "Riker" or "Milo"; every other name is reported unknown. */
  lemma InlineChooseAnswers(cloneName: string)
    ensures InlineChooseCloneOfBob(cloneName) == cloneName + CloneSuffix
      <==> cloneName == "Riker" || cloneName == "Milo"
    ensures cloneName != "Riker" && cloneName != "Milo" ==>
      InlineChooseCloneOfBob(cloneName) == ToolExecution.UnknownClonePrefix + cloneName
  {
    if cloneName != "Riker" && cloneName != "Milo" {
      assert |ToolExecution.UnknownClonePrefix| != |CloneSuffix|;
    }
  }

  /** "milo" is unknown to the inline tool but selects Milo in the routing tool of the workflow. */
  lemma LowerCaseMiloDisagreement()
    ensures InlineChooseCloneOfBob("milo") == ToolExecution.UnknownClonePrefix + "milo"
    ensures CloneNamed(ToLower("milo")) == Some(Milo)
  {
    assert ToLower("milo") == "milo";
  }

  /** "Riker" is vouched for by the inline tool but is not a clone the routing tool can select. */
  lemma RikerDisagreement()
    ensures InlineChooseCloneOfBob("Riker") == "Riker" + CloneSuffix
    ensures CloneNamed(ToLower("Riker")) == None
  {
    assert ToLower("Riker") == "riker";
  }

  function ToolResult(call: MainToolCall): string
  {
    match call
    case AddNumbers(sum) => sum
    case InlineChoose(name) => InlineChooseCloneOfBob(name)
  }

  /** The results the library returns for a batch: one per call, in order. */
  function Results(calls: seq<MainToolCall>): (results: seq<string>)
    ensures |results| == |calls|
    ensures forall i :: 0 <= i < |calls| ==> results[i] == ToolResult(calls[i])
  {
    seq(|calls|, i requires 0 <= i < |calls| => ToolResult(calls[i]))
  }

  const ToolNote := "use the above result of the tool calls to answer the user question: "

  /** What a chat turn appends to Bob's memory: the joined tool results and a note, then the message. */
  function Turn(message: string, results: Option<seq<string>>): seq<Message>
  {
    match results
    case Some(rs) => [System(Join(rs, " ")), System(ToolNote), User(message)]
    case None => [User(message)]
  }

  /** Every turn ends with the user's message, preceded by system notes only. */
  lemma TurnEndsWithMessage(message: string, results: Option<seq<string>>)
    ensures var ms := Turn(message, results);
      && |ms| == (if results.Some? then 3 else 1)
      && ms[|ms| - 1] == User(message)
      && (forall k :: 0 <= k < |ms| - 1 ==> ms[k].System?)
  {
  }

  /** The tool results can be read back from Bob's first note when none of them has a space. */
  lemma ResultsRecoverable(message: string, results: seq<string>)
    requires |results| > 0
    requires forall i :: 0 <= i < |results| ==> ' ' !in results[i]
    ensures Split(Turn(message, Some(results))[0].content, " ") == results
  {
    SplitJoin(results, ' ');
  }

  const ErrorPrefix := "😡 Error: "
  const Thinking := "**🤖 Bob is thinking...**"
  const CancelNote := "🚫 Cancelling request..."

  /** What the chat handler writes before the answer: the decoding error and the execution error, unflushed. */
  function Preamble(body: RequestBody, detected: seq<MainToolCall>, execErr: Option<string>): seq<Event>
  {
    (if body.err.Some? then [Write(ErrorPrefix + body.err.value)] else [])
    + (if |detected| > 0 && execErr.Some? then [Write(ErrorPrefix + execErr.value)] else [])
    + [Write(Thinking)]
  }

  /** Each fragment of the answer is written and flushed at once. */
  function FragmentEvents(fragments: seq<string>): (es: seq<Event>)
    ensures |es| == 2 * |fragments|
    decreases |fragments|
  {
    if |fragments| == 0 then []
    else FragmentEvents(fragments[..|fragments| - 1]) + [Write(fragments[|fragments| - 1]), Flush]
  }

  /** The text a streamed answer shows, in order. */
  lemma {:induction false} FragmentsShown(fragments: seq<string>)
    ensures Body(FragmentEvents(fragments)) == Join(fragments, "")
    decreases |fragments|
  {
    if |fragments| > 0 {
      var init := fragments[..|fragments| - 1];
      var last := fragments[|fragments| - 1];
      FragmentsShown(init);
      BodyOfWrite(FragmentEvents(init), last);
      assert fragments == init + [last];
      ConcatSnoc(init, last);
    }
  }

  /**
   * How many fragments reach the client. The callback writes a fragment
   * and then reports an error if the flag is up, and the library stops at
   * the first error: with the flag already up only the first fragment is
   * shown; a cancel during fragment k lets fragments 0..k through.
   */
  function Streamed(alreadyStopping: bool, count: nat, cancelAt: Option<nat>): nat
  {
    if count == 0 then 0
    else if alreadyStopping then 1
    else if cancelAt.Some? && cancelAt.value < count then cancelAt.value + 1
    else count
  }

  /** Without a cancel, the whole answer is shown; a cancel never shows more than was produced. */
  lemma StreamedBounds(alreadyStopping: bool, count: nat, cancelAt: Option<nat>)
    ensures Streamed(alreadyStopping, count, cancelAt) <= count
    ensures count > 0 ==> Streamed(alreadyStopping, count, cancelAt) >= 1
    ensures !alreadyStopping && (cancelAt.None? || cancelAt.value >= count) ==>
      Streamed(alreadyStopping, count, cancelAt) == count
  {
  }

  /** What one `POST /chat` request brings: its body and what the libraries decide for it. */
  datatype ChatRequest = ChatRequest(body: RequestBody, detected: seq<MainToolCall>, execErr: Option<string>,
                                     fragments: seq<string>, cancelAt: Option<nat>)

  class Server {
    const bob: Agent
    const riker: Agent
    /** `shouldIStopTheCompletion`, shared by both handlers. */
    var stopping: bool

    constructor (bob: Agent, riker: Agent)
      ensures this.bob == bob && this.riker == riker && !stopping
    {
      this.bob := bob;
      this.riker := riker;
      stopping := false;
    }

    /** `DELETE /cancel`: raises the flag and answers with a note. */
    method Cancel(response: Response)
      modifies this, response
      ensures stopping
      ensures response.events == old(response.events) + [Write(CancelNote)]
    {
      stopping := true;
      response.Write(CancelNote);
    }

    /**
     * Bob's streamed completion with the handler's callback. A cancel
     * request served on `cancelResponse` while fragment `cancelAt` is being
     * produced raises the flag before the callback checks it.
     */
    method Stream(response: Response, cancelResponse: Response, fragments: seq<string>, cancelAt: Option<nat>)
      returns (written: nat)
      requires response != cancelResponse
      modifies this, response, cancelResponse
      ensures written == Streamed(old(stopping), |fragments|, cancelAt)
      ensures response.events == old(response.events) + FragmentEvents(fragments[..written])
      ensures var cancelled := cancelAt.Some? && cancelAt.value < written;
        && stopping == (old(stopping) || cancelled)
        && cancelResponse.events == old(cancelResponse.events) + (if cancelled then [Write(CancelNote)] else [])
    {
      ghost var total := Streamed(stopping, |fragments|, cancelAt);
      ghost var wasStopping := stopping;
      var i := 0;
      var stopped := false;
      while i < |fragments| && !stopped
        invariant i <= |fragments| && i <= total
        invariant stopped <==> i > 0 && stopping
        invariant stopped ==> i == total
        invariant !stopped && i < |fragments| ==> i < total
        invariant stopping == (wasStopping || (cancelAt.Some? && cancelAt.value < i))
        invariant response.events == old(response.events) + FragmentEvents(fragments[..i])
        invariant cancelResponse.events == old(cancelResponse.events)
          + (if cancelAt.Some? && cancelAt.value < i then [Write(CancelNote)] else [])
        decreases |fragments| - i
      {
        if cancelAt == Some(i) {
          Cancel(cancelResponse);
        }
        response.Write(fragments[i]);
        response.Flush();
        assert fragments[..i + 1][..i] == fragments[..i];
        i := i + 1;
        if stopping {
          stopped := true;
        }
      }
      written := i;
    }

    /**
     * `POST /chat`. Riker's memory becomes the user's message alone; with
     * tool calls detected, their results go to Bob before the message and
     * Riker's memory is emptied, otherwise Bob only gets the message; then
     * the answer is streamed.
     */
    method Chat(response: Response, cancelResponse: Response, body: RequestBody,
                detected: seq<MainToolCall>, execErr: Option<string>,
                fragments: seq<string>, cancelAt: Option<nat>)
      returns (written: nat)
      requires response != cancelResponse && bob != riker
      modifies this, response, cancelResponse, bob, riker
      ensures var message := MessageOf(body);
        && riker.messages == (if |detected| > 0 then [] else [User(message)])
        && bob.messages == old(bob.messages)
             + Turn(message, if |detected| > 0 then Some(Results(detected)) else None)
      ensures written == Streamed(old(stopping), |fragments|, cancelAt)
      ensures response.events == old(response.events)
        + Preamble(body, detected, execErr) + FragmentEvents(fragments[..written])
      ensures var cancelled := cancelAt.Some? && cancelAt.value < written;
        && stopping == (old(stopping) || cancelled)
        && cancelResponse.events == old(cancelResponse.events) + (if cancelled then [Write(CancelNote)] else [])
    {
      ghost var events0 := response.events;
      if body.err.Some? {
        response.Write(ErrorPrefix + body.err.value);
      }
      ghost var events1 := response.events;
      var message := MessageOf(body);
      riker.messages := [User(message)];
      if |detected| > 0 {
        var results := Results(detected);
        if execErr.Some? {
          response.Write(ErrorPrefix + execErr.value);
        }
        bob.messages := bob.messages + [System(Join(results, " ")), System(ToolNote), User(message)];
        riker.messages := [];
      } else {
        bob.messages := bob.messages + [User(message)];
      }
      response.Write(Thinking);
      assert response.events == events0 + Preamble(body, detected, execErr);
      written := Stream(response, cancelResponse, fragments, cancelAt);
    }

    /**
     * A cancel followed by two chat requests: nothing lowers the flag, so
     * both answers stop after their first fragment, whenever a further cancel
     * arrives, and the flag is still up afterwards.
     */
    method CancelThenChats(response: Response, cancelResponse: Response,
                           first: ChatRequest, second: ChatRequest)
      returns (written1: nat, written2: nat)
      requires response != cancelResponse && bob != riker
      modifies this, response, cancelResponse, bob, riker
      ensures stopping
      ensures written1 == (if |first.fragments| > 0 then 1 else 0)
      ensures written2 == (if |second.fragments| > 0 then 1 else 0)
    {
      Cancel(cancelResponse);
      written1 := Chat(response, cancelResponse, first.body, first.detected, first.execErr,
                       first.fragments, first.cancelAt);
      written2 := Chat(response, cancelResponse, second.body, second.detected, second.execErr,
                       second.fragments, second.cancelAt);
    }
  }
}
