/**
 * `ultra_chat_prompting_process` of train_clm.py: the contents of the user
 * and assistant messages, paired in order, rendered into one chat prompt.
 */
module TrainClm {

  /** One chat message of the `messages` list. */
  datatype Message = Message(role: string, content: string)

  /** The contents of the messages with the given role, in their original order. */
  function Contents(messages: seq<Message>, role: string): (r: seq<string>)
    ensures |r| <= |messages|
    decreases |messages|
  {
    if messages == [] then []
    else
      var rest := Contents(messages[..|messages| - 1], role);
      var last := messages[|messages| - 1];
      if last.role == role then rest + [last.content] else rest
  }

  /** Filtering distributes over concatenation of message lists. */
  lemma {:induction false} ContentsAppend(a: seq<Message>, b: seq<Message>, role: string)
    ensures Contents(a + b, role) == Contents(a, role) + Contents(b, role)
    decreases |b|
  {
    if b == [] {
      assert a + b == a;
    } else {
      var init := b[..|b| - 1];
      ContentsAppend(a, init, role);
      assert (a + b)[..|a + b| - 1] == a + init;
    }
  }

  /** Every collected content is the content of some message with that role, and only such messages count. */
  lemma {:induction false} ContentsFromRole(messages: seq<Message>, role: string)
    ensures forall c :: c in Contents(messages, role) ==> exists m :: m in messages && m.role == role && m.content == c
    ensures (forall m :: m in messages ==> m.role != role) ==> Contents(messages, role) == []
    decreases |messages|
  {
    if messages != [] {
      var init := messages[..|messages| - 1];
      ContentsFromRole(init, role);
      assert forall m :: m in init ==> m in messages;
    }
  }

  /** `zip`: pairs by position, as many as the shorter list has. */
  function Zip(us: seq<string>, as_: seq<string>): (r: seq<(string, string)>)
    ensures |r| == if |us| < |as_| then |us| else |as_|
    ensures forall i :: 0 <= i < |r| ==> r[i] == (us[i], as_[i])
  {
    var n := if |us| < |as_| then |us| else |as_|;
    seq(n, i requires 0 <= i < n => (us[i], as_[i]))
  }

  /** The text one user/assistant pair contributes. */
  function Turn(user: string, assistant: string): (t: string)
    ensures |t| == |user| + |assistant| + 33
  {
    "<|user|>\n" + user + "</s>\n<|assistant|>\n" + assistant + "</s>\n"
  }

  /** Both contents sit at fixed places in a turn: after the 9-character user tag and after the 19-character separator. */
  lemma TurnParts(user: string, assistant: string)
    ensures var t := Turn(user, assistant);
      t[..9] == "<|user|>\n" && t[9..9 + |user|] == user &&
      t[9 + |user|..28 + |user|] == "</s>\n<|assistant|>\n" &&
      t[28 + |user|..28 + |user| + |assistant|] == assistant && t[28 + |user| + |assistant|..] == "</s>\n"
  {
    var t := Turn(user, assistant);
    var a := "<|user|>\n" + user;
    var b := a + "</s>\n<|assistant|>\n";
    var c := b + assistant;
    assert t == c + "</s>\n";
    assert t[..9] == a[..9];
    assert t[9..9 + |user|] == a[9..];
    assert t[9 + |user|..28 + |user|] == b[9 + |user|..];
    assert t[28 + |user|..28 + |user| + |assistant|] == c[28 + |user|..];
  }

  /** The prompt for a list of pairs: their turns, in order. */
  function Render(pairs: seq<(string, string)>): (p: string)
    decreases |pairs|
  {
    if pairs == [] then "" else Render(pairs[..|pairs| - 1]) + Turn(pairs[|pairs| - 1].0, pairs[|pairs| - 1].1)
  }

  /** Rendering a concatenation is concatenating the renderings. */
  lemma {:induction false} RenderAppend(p: seq<(string, string)>, q: seq<(string, string)>)
    ensures Render(p + q) == Render(p) + Render(q)
    decreases |q|
  {
    if q == [] {
      assert p + q == p;
    } else {
      var init := q[..|q| - 1];
      RenderAppend(p, init);
      assert (p + q)[..|p + q| - 1] == p + init;
      var last := q[|q| - 1];
    }
  }

  /** The length of the prompt: the pairs' contents plus 33 template characters per pair. */
  function TextLength(pairs: seq<(string, string)>): nat
    decreases |pairs|
  {
    if pairs == [] then 0 else TextLength(pairs[..|pairs| - 1]) + |pairs[|pairs| - 1].0| + |pairs[|pairs| - 1].1|
  }

  lemma {:induction false} RenderLength(pairs: seq<(string, string)>)
    ensures |Render(pairs)| == TextLength(pairs) + 33 * |pairs|
    decreases |pairs|
  {
    if pairs != [] {
      RenderLength(pairs[..|pairs| - 1]);
    }
  }

  /** A non-empty prompt starts with the first user turn. */
  lemma {:induction false} RenderStartsWithFirstTurn(pairs: seq<(string, string)>)
    requires |pairs| > 0
    ensures var first := Turn(pairs[0].0, pairs[0].1);
      |first| <= |Render(pairs)| && Render(pairs)[..|first|] == first
  {
    RenderAppend([pairs[0]], pairs[1..]);
    assert [pairs[0]] + pairs[1..] == pairs;
    assert Render([pairs[0]]) == Render([]) + Turn(pairs[0].0, pairs[0].1);
  }

  /** The prompt the function builds from the messages. */
  function PromptOf(messages: seq<Message>): string
  {
    Render(Zip(Contents(messages, "user"), Contents(messages, "assistant")))
  }

  /** Without a user message or without an assistant message there is no turn, so the prompt is empty. */
  lemma NoPairNoPrompt(messages: seq<Message>)
    requires (forall m :: m in messages ==> m.role != "user") || (forall m :: m in messages ==> m.role != "assistant")
    ensures PromptOf(messages) == ""
  {
    ContentsFromRole(messages, "user");
    ContentsFromRole(messages, "assistant");
  }

  /**
   * `ultra_chat_prompting_process`: collect the two parts, then append one
   * turn per zipped pair; the result has the single key "prompt".
   */
  method UltraChatPromptingProcess(messages: seq<Message>) returns (out: map<string, string>)
    ensures out.Keys == {"prompt"}
    ensures out["prompt"] == PromptOf(messages)
  {
    var userPart := Contents(messages, "user");
    var assistantPart := Contents(messages, "assistant");
    var pairs := Zip(userPart, assistantPart);
    var prompt := "";
    var i := 0;
    while i < |pairs|
      invariant 0 <= i <= |pairs|
      invariant prompt == Render(pairs[..i])
    {
      assert pairs[..i + 1][..i] == pairs[..i];
      prompt := prompt + Turn(pairs[i].0, pairs[i].1);
      i := i + 1;
    }
    assert pairs[..i] == pairs;
    out := map["prompt" := prompt];
  }
}
