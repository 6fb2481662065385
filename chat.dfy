/** The chat panel opened on one paper: the conversation so far, the text
    being typed, and whether an answer is awaited. Each submission produces one
    chat-completion request; its answer arrives later. */
module Chat {
  import opened Wrappers
  import opened JsString
  import opened Papers

  /** `System` is used only in requests; the conversation holds `User` and
      `Assistant` entries. */
  datatype Role = System | User | Assistant

  datatype Message = Message(role: Role, content: string)

  const ChatModel := "gpt-4"
  const MaxTokens := 1000

  /** The key the chat panel reads its credential from. */
  const OpenAiKeyName := "OPENAI_API_KEY"

  /** The body and credential of a chat-completion request. The sampling
      temperature is not modelled. */
  datatype Request = Request(model: string, messages: seq<Message>, maxTokens: nat, authorization: string)

  /** The fixed text of the system instructions. */
  const PromptIntro := "You are a helpful assistant discussing the following scientific paper:"
  const Indent := "              "
  const TitleLabel := "Title: "
  const AuthorsLabel := "Authors: "
  const AbstractLabel := "Abstract: "
  const PromptClosing := "Provide clear and concise responses about this paper."

  /** The lines of the instructions sent ahead of the conversation: the
      paper's title, its authors separated by `", "` and its abstract, each on
      its own indented line, then a blank indented line and the closing
      request. */
  function PromptLines(paper: Paper): seq<string> {
    [ PromptIntro,
      Indent + TitleLabel + paper.title,
      Indent + AuthorsLabel + Join(paper.authors, ", "),
      Indent + AbstractLabel + paper.abstractText,
      Indent,
      Indent + PromptClosing ]
  }

  /** The system instructions: the prompt lines separated by line feeds. */
  function SystemPrompt(paper: Paper): string {
    Join(PromptLines(paper), "\n")
  }

  /** The instructions open with the introduction and then, on the next line
      after its label, the paper's title. */
  lemma SystemPromptHead(paper: Paper)
    ensures var prompt := SystemPrompt(paper);
      var head := PromptIntro + "\n" + Indent + TitleLabel + paper.title;
      |head| <= |prompt| && prompt[..|head|] == head
  {
    var lines := PromptLines(paper);
    var rest := Join(lines[1..], "\n");
    JoinHead(lines, "\n");
    JoinHead(lines[1..], "\n");
    assert SystemPrompt(paper) == (PromptIntro + "\n") + rest;
    assert rest[..|lines[1]|] == Indent + TitleLabel + paper.title;
  }

  /** The instructions close with the closing request. */
  lemma SystemPromptTail(paper: Paper)
    ensures var prompt := SystemPrompt(paper);
      |PromptClosing| <= |prompt| && prompt[|prompt| - |PromptClosing|..] == PromptClosing
  {
    var lines := PromptLines(paper);
    var prompt := SystemPrompt(paper);
    var last := lines[5];
    JoinLast(lines, "\n");
    assert prompt[|prompt| - |last|..] == last;
    assert last[|last| - |PromptClosing|..] == PromptClosing;
  }

  /** The instructions written out as one template: the introduction, then
      the title, authors and abstract lines, a blank line and the closing
      request, each line after the first indented. */
  lemma SystemPromptTemplate(paper: Paper)
    ensures SystemPrompt(paper) ==
      PromptIntro + "\n"
      + Indent + TitleLabel + paper.title + "\n"
      + Indent + AuthorsLabel + Join(paper.authors, ", ") + "\n"
      + Indent + AbstractLabel + paper.abstractText + "\n"
      + Indent + "\n"
      + Indent + PromptClosing
  {
    JoinSixLines(PromptIntro, Indent, TitleLabel, paper.title, AuthorsLabel, Join(paper.authors, ", "),
      AbstractLabel, paper.abstractText, PromptClosing, "\n");
  }

  /** Six lines of the shape the instructions have, joined by `nl`, written
      out as one concatenation. */
  lemma JoinSixLines(intro: string, ind: string, l1: string, v1: string, l2: string, v2: string,
                     l3: string, v3: string, closing: string, nl: string)
    ensures Join([intro, ind + l1 + v1, ind + l2 + v2, ind + l3 + v3, ind, ind + closing], nl) ==
      intro + nl + ind + l1 + v1 + nl + ind + l2 + v2 + nl + ind + l3 + v3 + nl + ind + nl + ind + closing
  {
    var lines := [intro, ind + l1 + v1, ind + l2 + v2, ind + l3 + v3, ind, ind + closing];
    assert lines[4..][1..] == lines[5..];
    assert lines[3..][1..] == lines[4..];
    assert lines[2..][1..] == lines[3..];
    assert lines[1..][1..] == lines[2..];
    assert Join(lines[4..], nl) == ind + nl + ind + closing by {
      ConcatAssoc(ind + nl, ind, closing);
    }
    var j4 := Join(lines[4..], nl);
    var j3 := Join(lines[3..], nl);
    var j2 := Join(lines[2..], nl);
    var j1 := Join(lines[1..], nl);
    assert j3 == ind + l3 + v3 + nl + ind + nl + ind + closing by {
      assert j3 == (ind + l3 + v3 + nl) + j4;
      FlattenLine3(ind, l3, v3, closing, nl);
    }
    assert j2 == ind + l2 + v2 + nl + ind + l3 + v3 + nl + ind + nl + ind + closing by {
      assert j2 == (ind + l2 + v2 + nl) + j3;
      FlattenLine2(ind, l2, v2, l3, v3, closing, nl);
    }
    assert j1 == ind + l1 + v1 + nl + ind + l2 + v2 + nl + ind + l3 + v3 + nl + ind + nl + ind + closing by {
      assert j1 == (ind + l1 + v1 + nl) + j2;
      FlattenLine1(ind, l1, v1, l2, v2, l3, v3, closing, nl);
    }
    assert Join(lines, nl) == (intro + nl) + j1;
    FlattenIntro(intro, ind, l1, v1, l2, v2, l3, v3, closing, nl);
  }

  /** Regrouping the third line before the blank and closing lines into one flat concatenation. */
  lemma FlattenLine3(ind: string, l3: string, v3: string, closing: string, nl: string)
    ensures (ind + l3 + v3 + nl) + (ind + nl + ind + closing) == ind + l3 + v3 + nl + ind + nl + ind + closing
  {
    ConcatAssoc(ind + l3 + v3 + nl, ind + nl + ind, closing);
    ConcatAssoc(ind + l3 + v3 + nl, ind + nl, ind);
    ConcatAssoc(ind + l3 + v3 + nl, ind, nl);
  }

  /** Regrouping the second line before the rest into one flat concatenation. */
  lemma FlattenLine2(ind: string, l2: string, v2: string, l3: string, v3: string, closing: string, nl: string)
    ensures (ind + l2 + v2 + nl) + (ind + l3 + v3 + nl + ind + nl + ind + closing) == ind + l2 + v2 + nl + ind + l3 + v3 + nl + ind + nl + ind + closing
  {
    ConcatAssoc(ind + l2 + v2 + nl, ind + l3 + v3 + nl + ind + nl + ind, closing);
    ConcatAssoc(ind + l2 + v2 + nl, ind + l3 + v3 + nl + ind + nl, ind);
    ConcatAssoc(ind + l2 + v2 + nl, ind + l3 + v3 + nl + ind, nl);
    ConcatAssoc(ind + l2 + v2 + nl, ind + l3 + v3 + nl, ind);
    ConcatAssoc(ind + l2 + v2 + nl, ind + l3 + v3, nl);
    ConcatAssoc(ind + l2 + v2 + nl, ind + l3, v3);
    ConcatAssoc(ind + l2 + v2 + nl, ind, l3);
  }

  /** Regrouping the first line before the rest into one flat concatenation. */
  lemma FlattenLine1(ind: string, l1: string, v1: string, l2: string, v2: string, l3: string, v3: string, closing: string, nl: string)
    ensures (ind + l1 + v1 + nl) + (ind + l2 + v2 + nl + ind + l3 + v3 + nl + ind + nl + ind + closing) == ind + l1 + v1 + nl + ind + l2 + v2 + nl + ind + l3 + v3 + nl + ind + nl + ind + closing
  {
    ConcatAssoc(ind + l1 + v1 + nl, ind + l2 + v2 + nl + ind + l3 + v3 + nl + ind + nl + ind, closing);
    ConcatAssoc(ind + l1 + v1 + nl, ind + l2 + v2 + nl + ind + l3 + v3 + nl + ind + nl, ind);
    ConcatAssoc(ind + l1 + v1 + nl, ind + l2 + v2 + nl + ind + l3 + v3 + nl + ind, nl);
    ConcatAssoc(ind + l1 + v1 + nl, ind + l2 + v2 + nl + ind + l3 + v3 + nl, ind);
    ConcatAssoc(ind + l1 + v1 + nl, ind + l2 + v2 + nl + ind + l3 + v3, nl);
    ConcatAssoc(ind + l1 + v1 + nl, ind + l2 + v2 + nl + ind + l3, v3);
    ConcatAssoc(ind + l1 + v1 + nl, ind + l2 + v2 + nl + ind, l3);
    ConcatAssoc(ind + l1 + v1 + nl, ind + l2 + v2 + nl, ind);
    ConcatAssoc(ind + l1 + v1 + nl, ind + l2 + v2, nl);
    ConcatAssoc(ind + l1 + v1 + nl, ind + l2, v2);
    ConcatAssoc(ind + l1 + v1 + nl, ind, l2);
  }

  /** Regrouping the introduction before the rest into one flat concatenation. */
  lemma FlattenIntro(intro: string, ind: string, l1: string, v1: string, l2: string, v2: string, l3: string, v3: string, closing: string, nl: string)
    ensures (intro + nl) + (ind + l1 + v1 + nl + ind + l2 + v2 + nl + ind + l3 + v3 + nl + ind + nl + ind + closing) == intro + nl + ind + l1 + v1 + nl + ind + l2 + v2 + nl + ind + l3 + v3 + nl + ind + nl + ind + closing
  {
    ConcatAssoc(intro + nl, ind + l1 + v1 + nl + ind + l2 + v2 + nl + ind + l3 + v3 + nl + ind + nl + ind, closing);
    ConcatAssoc(intro + nl, ind + l1 + v1 + nl + ind + l2 + v2 + nl + ind + l3 + v3 + nl + ind + nl, ind);
    ConcatAssoc(intro + nl, ind + l1 + v1 + nl + ind + l2 + v2 + nl + ind + l3 + v3 + nl + ind, nl);
    ConcatAssoc(intro + nl, ind + l1 + v1 + nl + ind + l2 + v2 + nl + ind + l3 + v3 + nl, ind);
    ConcatAssoc(intro + nl, ind + l1 + v1 + nl + ind + l2 + v2 + nl + ind + l3 + v3, nl);
    ConcatAssoc(intro + nl, ind + l1 + v1 + nl + ind + l2 + v2 + nl + ind + l3, v3);
    ConcatAssoc(intro + nl, ind + l1 + v1 + nl + ind + l2 + v2 + nl + ind, l3);
    ConcatAssoc(intro + nl, ind + l1 + v1 + nl + ind + l2 + v2 + nl, ind);
    ConcatAssoc(intro + nl, ind + l1 + v1 + nl + ind + l2 + v2, nl);
    ConcatAssoc(intro + nl, ind + l1 + v1 + nl + ind + l2, v2);
    ConcatAssoc(intro + nl, ind + l1 + v1 + nl + ind, l2);
    ConcatAssoc(intro + nl, ind + l1 + v1 + nl, ind);
    ConcatAssoc(intro + nl, ind + l1 + v1, nl);
    ConcatAssoc(intro + nl, ind + l1, v1);
    ConcatAssoc(intro + nl, ind, l1);
  }

  /** The header built from the stored key by string interpolation: a
      missing key is rendered as the text `null`. */
  function AuthorizationHeader(storedKey: Option<string>): string {
    "Bearer " + (match storedKey case None => "null" case Some(k) => k)
  }

  /** The request for one submission: the system instructions, the
      conversation before this submission, then the new user entry. */
  function BuildRequest(paper: Paper, prior: seq<Message>, userText: string, storedKey: Option<string>): Request {
    Request(
      ChatModel,
      [Message(System, SystemPrompt(paper))] + prior + [Message(User, userText)],
      MaxTokens,
      AuthorizationHeader(storedKey))
  }

  /** Entry `i` of a conversation is a user entry of non-empty text without
      white space at either end, or an assistant entry answering the user
      entry just before it. */
  predicate EntryFits(messages: seq<Message>, i: nat)
    requires i < |messages|
  {
    match messages[i].role
    case System => false
    case User => messages[i].content != "" && Trimmed(messages[i].content)
    case Assistant => 0 < i && messages[i - 1].role == User
  }

  /** The shape of a conversation: every entry fits, so there are no system
      entries and every assistant entry answers a question. */
  predicate Transcript(messages: seq<Message>) {
    forall i :: 0 <= i < |messages| ==> EntryFits(messages, i)
  }

  /** The request holds the conversation unchanged between exactly one system
      entry, which comes first and carries the paper's description, and the
      new user entry, which comes last; the model, token limit and credential
      are fixed by the paper-independent constants and the stored key. */
  lemma BuildRequestSpec(paper: Paper, prior: seq<Message>, userText: string, storedKey: Option<string>)
    requires Transcript(prior)
    ensures var r := BuildRequest(paper, prior, userText, storedKey);
      && |r.messages| == |prior| + 2
      && r.messages[0] == Message(System, SystemPrompt(paper))
      && r.messages[1..|prior| + 1] == prior
      && r.messages[|prior| + 1] == Message(User, userText)
      && (forall i :: 0 <= i < |r.messages| ==> (r.messages[i].role == System <==> i == 0))
      && r.model == ChatModel && r.maxTokens == MaxTokens
      && r.authorization == AuthorizationHeader(storedKey)
  {
    var r := BuildRequest(paper, prior, userText, storedKey);
    forall i | 1 <= i <= |prior|
      ensures r.messages[i] == prior[i - 1] && r.messages[i].role != System
    {
      assert EntryFits(prior, i - 1);
    }
  }

  /** A conversation stays well shaped when a non-empty trimmed user entry is
      appended, and when an answer is appended after a trailing user entry. */
  lemma TranscriptGrows(messages: seq<Message>, m: Message)
    requires Transcript(messages)
    requires m.role == User ==> m.content != "" && Trimmed(m.content)
    requires m.role == Assistant ==> messages != [] && messages[|messages| - 1].role == User
    requires m.role != System
    ensures Transcript(messages + [m])
  {
    var t := messages + [m];
    forall i | 0 <= i < |t|
      ensures EntryFits(t, i)
    {
      if i < |messages| {
        assert EntryFits(messages, i);
        assert t[i] == messages[i];
        assert 0 < i ==> t[i - 1] == messages[i - 1];
      }
    }
  }

  /** A chat panel. `submitted` and `answered` count the accepted submissions
      and the answers received; they exist only for the proof. */
  class ChatSession {
    const paper: Paper
    var messages: seq<Message>
    var input: string
    var isLoading: bool
    ghost var submitted: nat
    ghost var answered: nat

    /** The conversation is well shaped; it holds one user entry per accepted
        submission and one assistant entry per answer; while an answer is
        awaited, some submission is unanswered and the conversation ends with
        the question. */
    ghost predicate Valid()
      reads this
    {
      && Transcript(messages)
      && |messages| == submitted + answered
      && answered <= submitted
      && (isLoading ==> answered < submitted && messages != [] && messages[|messages| - 1].role == User)
    }

    /** An empty panel for `paper`. */
    constructor (paper: Paper)
      ensures Valid()
      ensures this.paper == paper
      ensures messages == [] && input == "" && !isLoading
      ensures submitted == 0 && answered == 0
    {
      this.paper := paper;
      messages := [];
      input := "";
      isLoading := false;
      submitted := 0;
      answered := 0;
    }

    /** Typing into the text field. */
    method SetInput(text: string)
      requires Valid()
      modifies this
      ensures Valid()
      ensures input == text
      ensures messages == old(messages) && isLoading == old(isLoading)
      ensures submitted == old(submitted) && answered == old(answered)
    {
      input := text;
    }

    /** The first half of `handleSubmit`. With blank input, or while an answer
        is awaited, nothing happens and no request is made. Otherwise the
        trimmed input is appended as a user entry, the field is cleared, the
        panel becomes busy, and the request for the conversation as it was
        before this entry is returned. `storedKey` is what the key store holds
        under `OpenAiKeyName`. */
    method Submit(storedKey: Option<string>) returns (request: Option<Request>)
      requires Valid()
      modifies this
      ensures Valid()
      ensures request.None? <==> AllWs(old(input)) || old(isLoading)
      ensures request.None? ==>
        && messages == old(messages) && input == old(input) && isLoading == old(isLoading)
        && submitted == old(submitted) && answered == old(answered)
      ensures request.Some? ==>
        && Trim(old(input)) != "" && Trimmed(Trim(old(input)))
        && messages == old(messages) + [Message(User, Trim(old(input)))]
        && input == "" && isLoading
        && request.value == BuildRequest(paper, old(messages), Trim(old(input)), storedKey)
        && submitted == old(submitted) + 1 && answered == old(answered)
      ensures request.Some? && old(answered) == old(submitted) ==>
        |request.value.messages| == 2 * submitted
    {
      TrimEmptyIff(input);
      var userMessage := Trim(input);
      if userMessage == "" || isLoading {
        return None;
      }
      TrimTrimmed(input);
      var r := Send(userMessage, storedKey);
      request := Some(r);
    }

    /** An accepted submission of `userMessage`, already trimmed. */
    method Send(userMessage: string, storedKey: Option<string>) returns (request: Request)
      requires Valid() && !isLoading
      requires userMessage != "" && Trimmed(userMessage)
      modifies this
      ensures Valid()
      ensures messages == old(messages) + [Message(User, userMessage)]
      ensures input == "" && isLoading
      ensures request == BuildRequest(paper, old(messages), userMessage, storedKey)
      ensures |request.messages| == |old(messages)| + 2
      ensures submitted == old(submitted) + 1 && answered == old(answered)
    {
      var prior := messages;
      TranscriptGrows(messages, Message(User, userMessage));
      messages := messages + [Message(User, userMessage)];
      input := "";
      isLoading := true;
      submitted := submitted + 1;
      request := BuildRequest(paper, prior, userMessage, storedKey);
    }

    /** The second half of `handleSubmit`: an answer is appended as an
        assistant entry; a failed request adds nothing, and the question
        stays. Either way the panel is no longer busy. */
    method Resolve(reply: Option<string>)
      requires Valid() && isLoading
      modifies this
      ensures Valid()
      ensures !isLoading && input == old(input) && submitted == old(submitted)
      ensures reply.None? ==> messages == old(messages) && answered == old(answered)
      ensures reply.Some? ==>
        messages == old(messages) + [Message(Assistant, reply.value)] && answered == old(answered) + 1
    {
      if reply.Some? {
        TranscriptGrows(messages, Message(Assistant, reply.value));
        messages := messages + [Message(Assistant, reply.value)];
        answered := answered + 1;
      }
      isLoading := false;
    }
  }
}
