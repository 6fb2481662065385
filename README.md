# Paper search and chat: a Dafny model

The application is a single-page tool for finding papers on arXiv and
discussing one of them with a chat model. This project models and proves
properties of the three pieces of sequential logic in it:

- **Search-result normalisation.** The search page turns each Atom `entry`
  of an arXiv response (RFC 4287, section 4.1.2) into a `Paper` record.
  Title and summary text have every run of white space replaced by one
  space and are then trimmed. A missing element gives `""`. The authors are
  the first `name` of each `author`, in order. The URL is a copy of the id.
  - `JsString` models the ECMAScript string operations involved:
    `String.prototype.trim`, `replace(/\s+/g, " ")` and
    `Array.prototype.join`. They use one white-space set: WhiteSpace
    together with LineTerminator, sections 12.2 and 12.3 of ECMA-262.
  - `Papers` models the mapping from entry to record.
- **The page controller** (`Page`). It holds the paper list, the busy flag,
  the selected paper and the browser key store. A search is split in two
  steps: it starts, and then it completes with an outcome. Opening a chat
  first checks for a credential, asks for one if needed and stores it.
  Closing the chat clears the selection.
- **The chat panel** (`Chat`). It holds the conversation, the input field
  and the busy flag of a chat opened on one paper. A submission is split in
  two steps:
  - `Submit` appends the question and returns the chat-completion request.
  - `Resolve` appends the answer, or nothing if the request failed.

  The request body is built by a pure function. It holds the system
  instructions, then the conversation before the question, then the
  question.
- **The search form** (`SearchBar`). It forwards the trimmed query only
  when the query is not blank.

`App` relates the page's credential check to what the chat panel reads.

Inputs that come from outside the program are parameters of the model:
- the text of an entry's elements, after the XML has been parsed;
- the outcome of a search request;
- the reply typed into the key prompt;
- the stored chat key;
- the answer to a chat request.

The key store is a `map<string, string>`.

Where the code and its description differ, the model follows the code:
- A failed search leaves the earlier paper list on the page. It does not
  clear it.
- An HTTP error status is not a search failure. Only an exception is: from
  the network or from reading the body. Parsing never throws. An error
  response or malformed XML is parsed like any other response. The result
  usually has no entries, so it clears the list (`Fetched([])`).
- The page stores the credential under `PERPLEXITY_API_KEY`, but the chat
  panel reads `OPENAI_API_KEY`. With no such key stored, its request carries
  the header `Bearer null` (`App.CredentialMismatch`).

## Model

| member | source | states |
|---|---|---|
| JsString.ReplaceWsRuns | src/pages/Index.tsx:33 | Replacing white-space runs never lengthens the text. It is empty exactly when the input is. Its first character is a space exactly when the input starts with white space, and otherwise the input's first character. |
| JsString.ReplaceWsRunsSquashed | src/pages/Index.tsx:33 | After the replacement, every white-space character is `' '` and no two white-space characters are adjacent. |
| JsString.ReplaceWsRunsOfSquashed | src/pages/Index.tsx:33 | Text already in that shape is left unchanged. |
| JsString.NonWsReplaceWsRuns | src/pages/Index.tsx:33 | The replacement keeps every non-white-space character, in order. |
| JsString.ReplaceWsRunsIsJoin | src/pages/Index.tsx:33 | For text not starting with white space, the replacement equals its words (an independent definition) joined by single spaces, plus one space if the text ends in white space. |
| JsString.TrimStart | src/pages/Index.tsx:34 | The front half of `trim`. The result is a suffix of the input and does not start with white space. The dropped prefix is all white space (`JsString.TrimStartDropsWs`). |
| JsString.TrimEnd | src/pages/Index.tsx:34 | The back half of `trim`. The result is a prefix of the input and does not end in white space. The dropped suffix is all white space (`JsString.TrimEndDropsWs`). |
| JsString.Trim | src/pages/Index.tsx:34 | `String.prototype.trim`. Its properties are the rows `JsString.TrimTrimmed`, `TrimInfix`, `TrimEmptyIff`, `TrimIdempotent` and `NonWsTrim`. |
| JsString.TrimStartDropsWs | src/pages/Index.tsx:34 | What the front half of `trim` removes is all white space. |
| JsString.TrimEndDropsWs | src/pages/Index.tsx:34 | What the back half of `trim` removes is all white space. |
| JsString.Join | src/components/ChatInterface.tsx:45 | `Array.prototype.join` over strings. Its properties are the rows `JsString.JoinLast`, `JsString.ReplaceWsRunsIsJoinAll` and `Chat.SystemPromptTemplate`. |
| JsString.ReplaceWsRunsIsJoinAll | src/pages/Index.tsx:33 | For any text, the replacement is: one space if the text starts with white space, then its words joined by single spaces, then one more space if it ends in white space and is not all white space. |
| JsString.TrimTrimmed | src/pages/Index.tsx:34 | `trim` leaves no white space at either end. |
| JsString.TrimInfix | src/pages/Index.tsx:34 | `trim` keeps one contiguous part of the input and drops only white space before and after it. |
| JsString.TrimEmptyIff | src/components/SearchBar.tsx:16 | `trim` gives `""` exactly when the input is all white space. |
| JsString.TrimIdempotent | src/pages/Index.tsx:34 | Trimming twice is trimming once. |
| JsString.NonWsTrim | src/pages/Index.tsx:34 | `trim` keeps every non-white-space character, in order. |
| JsString.JoinLast | src/components/ChatInterface.tsx:43-48 | A join of one or more parts ends with the last part. |
| Papers.CollapseWs | src/pages/Index.tsx:33-34 | `replace(/\s+/g, " ")` then `trim()`. Its properties are the rows `Papers.CollapseWsCollapsed` through `Papers.CollapseWsIsJoinedWords`. |
| Papers.OrEmpty | src/pages/Index.tsx:29 | The default of an element's text: `""` when the element is missing. Stated in `Papers.ToPaperSpec`. |
| Papers.CollapsedOrEmpty | src/pages/Index.tsx:30-34 | The title and abstract expression. Stated in `Papers.CollapsedOrEmptySpec`. |
| Papers.ToPaper | src/pages/Index.tsx:28-44 | The record for one entry. Stated in `Papers.ToPaperSpec`. |
| Papers.AuthorList | src/pages/Index.tsx:35-37 | There is one author per `author` element, in order. A missing name gives `""`. |
| Papers.ParsePapers | src/pages/Index.tsx:26-28 | There is one record per entry, in document order. None is dropped and none is reordered. |
| Papers.CollapseWsCollapsed | src/pages/Index.tsx:30-34 | A collapsed title or summary has no white space at either end and no two adjacent white-space characters. Every white-space character left is `' '`. |
| Papers.CollapseWsKeepsText | src/pages/Index.tsx:33-34 | Collapsing keeps every non-white-space character, in order. |
| Papers.CollapseWsOfCollapsed | src/pages/Index.tsx:33-34 | Text already collapsed is left unchanged. |
| Papers.CollapseWsIdempotent | src/pages/Index.tsx:33-34 | Collapsing twice is collapsing once. |
| Papers.CollapseWsEmptyIff | src/pages/Index.tsx:34 | Collapsing gives `""` exactly when the input is all white space. |
| Papers.CollapseWsIsJoinedWords | src/pages/Index.tsx:33-34 | Collapsing gives the input's words, in order, separated by single spaces. |
| Papers.CollapsedOrEmptySpec | src/pages/Index.tsx:30-34 | A title or abstract is collapsed. It is `""` exactly when the element is missing or holds only white space. Otherwise it keeps the element's non-white-space text. |
| Papers.ToPaperSpec | src/pages/Index.tsx:28-44 | Every record is well formed: `url == id`, and title and abstract are collapsed. The id is the element text or `""`. Title and abstract are empty exactly when missing or blank. The authors are listed one per element, in order, with `""` for a missing name. |
| Papers.ParsePapersWellFormed | src/pages/Index.tsx:28-44 | Every parsed record is well formed and carries its entry's id. |
| Page.PapersAfterSearch | src/pages/Index.tsx:46-55 | The paper list after a search. Stated in `Page.PapersAfterSearchSpec`. |
| Page.ChatGate | src/pages/Index.tsx:59-74 | The credential check before a chat opens. Stated in `Page.ChatGateSpec`, `Page.ChatGateOnce` and `App.CredentialMismatch`. |
| Page.PapersAfterSearchSpec | src/pages/Index.tsx:28-53 | A successful search gives one well-formed record per entry, in order. A failed search leaves the list as it was. Either way, a list of well-formed records stays well formed. |
| Page.ChatGateSpec | src/pages/Index.tsx:59-74 | The chat opens exactly when a key is stored or the prompt returns a non-empty string. In the second case that string is stored. Otherwise the store is unchanged. No other key changes. Once the chat is open, a key is stored. |
| Page.ChatGateOnce | src/pages/Index.tsx:60-63 | Once a chat has opened, opening one again succeeds without asking and without changing the store. |
| Page.Controller.constructor | src/pages/Index.tsx:9-11 | The page starts with no papers, no search running and no chat open. |
| Page.Controller.StartSearch | src/pages/Index.tsx:14-22 | Starting a search sets the busy flag. It asks for the query's first ten results. Nothing else changes. |
| Page.Controller.CompleteSearch | src/pages/Index.tsx:23-56 | When a search ends, the page is not busy, whatever the outcome. The papers become `PapersAfterSearch` of the old list and the outcome. The selection and the store are unchanged. Every paper shown stays well formed. |
| Page.Controller.HandleChat | src/pages/Index.tsx:59-74 | The store becomes the gate's store. The selection becomes the paper if the gate opens and is unchanged otherwise. Papers and busy flag are unchanged. |
| Page.Controller.Close | src/pages/Index.tsx:100 | Closing clears the selection and changes nothing else. |
| Chat.PromptLines | src/components/ChatInterface.tsx:43-48 | The lines of the system instructions. Stated in `Chat.SystemPromptTemplate`. |
| Chat.SystemPrompt | src/components/ChatInterface.tsx:43-48 | The system instructions. Stated in `Chat.SystemPromptTemplate`, `Chat.SystemPromptHead` and `Chat.SystemPromptTail`. |
| Chat.SystemPromptTemplate | src/components/ChatInterface.tsx:43-48 | The system instructions are exactly the template written out. First the introduction. Then the title, authors and abstract lines, each indented by 14 spaces after its label, with the authors joined by `", "`. Then a line holding only the indentation, and the indented closing request. |
| Chat.AuthorizationHeader | src/components/ChatInterface.tsx:36 | The interpolated header. Stated in `Chat.BuildRequestSpec` and `App.CredentialMismatch`. |
| Chat.BuildRequest | src/components/ChatInterface.tsx:38-55 | The request for one submission. Stated in `Chat.BuildRequestSpec`. |
| Chat.SystemPromptHead | src/components/ChatInterface.tsx:43-44 | The system instructions open with the introduction. The next line holds the label `Title: ` and the paper's title. |
| Chat.SystemPromptTail | src/components/ChatInterface.tsx:48 | The system instructions close with the closing request. |
| Chat.BuildRequestSpec | src/components/ChatInterface.tsx:36-55 | The request lists `|prior| + 2` messages: the system instructions first, the earlier conversation unchanged, then the new user entry. Only the first message has the system role. Model, token limit and header are fixed by the constants and the stored key. |
| Chat.TranscriptGrows | src/components/ChatInterface.tsx:28 | The conversation keeps its shape when either of these is appended: a non-empty trimmed question, or an answer right after a question. |
| Chat.ChatSession.constructor | src/components/ChatInterface.tsx:18-20 | A new panel has no messages, empty input and is not busy. |
| Chat.ChatSession.SetInput | src/components/ChatInterface.tsx:101 | Typing sets the input and changes nothing else. |
| Chat.ChatSession.Submit | src/components/ChatInterface.tsx:22-56 | With blank input or while busy, nothing changes and no request is made. Otherwise: exactly one user entry holding the trimmed input is appended (non-empty and trimmed); the input is cleared; the panel is busy; the request is built from the conversation before the entry. When every earlier exchange was answered, the Nth request has 2N messages. The conversation never holds a system entry. |
| Chat.ChatSession.Send | src/components/ChatInterface.tsx:26-56 | An accepted question is appended. The input is cleared and the panel is busy. The request has two messages more than the earlier conversation. |
| Chat.ChatSession.Resolve | src/components/ChatInterface.tsx:58-67 | An answer appends exactly one assistant entry, directly after the question. A failure appends nothing and keeps the question. Both clear the busy flag. |
| SearchBar.SubmitQuery | src/components/SearchBar.tsx:16-17 | The call the form makes on submit. Stated in `SearchBar.SubmitQuerySpec` and `SearchBar.SubmitQueryIdempotent`. |
| SearchBar.SubmitQuerySpec | src/components/SearchBar.tsx:14-19 | The search handler is called exactly when the query is not blank, and then with `query.trim()`. That text is non-empty, has no white space at either end and keeps the other typed characters in order. |
| SearchBar.SubmitQueryIdempotent | src/components/SearchBar.tsx:16-17 | Submitting the forwarded query again forwards the same text. |
| App.CredentialMismatch | src/components/ChatInterface.tsx:36 | The page's key name differs from the panel's. Opening a chat never changes what the panel reads. With no `OPENAI_API_KEY` stored, the header is `Bearer null` whatever was typed at the prompt. |

## Left out

- HTTP: `fetch` in both components, the arXiv URL and `encodeURIComponent`. A search outcome is a list of entries or a failure. A chat outcome is an answer or a failure.
- XML: `DOMParser` and `getElementsByTagName`. An entry is the text its elements hold, `None` where an element is missing. A `parsererror` document is not modelled.
- User-interface effects: `prompt`, `toast` and `console.error`. The prompt's reply is a parameter. A toast or a log line has no effect on state.
- `localStorage`: modelled as a `map<string, string>` value.
- Strings are sequences of characters, not the UTF-16 code units of ECMAScript. Lone surrogates in typed text are not modelled. Every white-space character lies in the Basic Multilingual Plane, so trimming and white-space replacement are not affected.
- `temperature: 0.7`: floating point, not modelled. The model name and token limit are constants.
- The JSON encoding of the request body.
- Reading `data.choices[0].message.content`. A reply without `choices`, `choices[0]` or `message` throws, and that is a failed `Resolve`. A reply whose `message` lacks `content`, or holds `null` there, does not throw: the panel appends an assistant entry with no text. `Resolve` takes the answer as a string and does not model that entry.
- Asynchronous timing: answers arriving after the panel closed, overlapping searches, requests that never end. Each request is modelled as its start followed later by its completion.
- Rendering: `PaperCard` and all markup, including the loading texts and the `disabled` attributes. These are why `SetInput` carries no busy guard and why `StartSearch` does not require an idle page.
- Chat.ChatSession.Resolve: requires the panel to be busy, because an answer only exists for a request that was sent.
