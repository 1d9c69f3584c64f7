/**
 * Model of `app/api/chat/route.ts`: the POST handler that builds the
 * system and user messages from the form, asks the chat model, and pulls
 * an `answer` and a `codeSnippet` out of the reply.
 *
 * Library calls are parameters of the model:
 *  - `complete` is the chat-completion request (system and user message in,
 *    choices or a thrown error out);
 *  - `parse` is `JSON.parse` on the extracted span; `None` means it threw.
 */
module ChatRoute {
  import opened Wrappers
  import Js

  const Placeholder: string := "Sorry, could not parse answer."
  const NoAnswerFound: string := "No answer found."
  const NoFileContent: string := "No file content provided or too large."
  const NoFile: string := "no file"
  /** Number of file characters embedded in the system message. */
  const ExcerptLength: nat := 1000

  // ---------------------------------------------------------------------
  // The greedy JSON span: the match of /\{[\s\S]*\}/

  /** The index of the first `c` in `s` at or after `from`. */
  function IndexOf(s: string, c: char, from: nat): (r: Option<nat>)
    decreases |s| - from
    ensures r.Some? ==> from <= r.value < |s| && s[r.value] == c
    ensures r.Some? ==> forall k :: from <= k < r.value ==> s[k] != c
    ensures r.None? ==> forall k :: from <= k < |s| ==> s[k] != c
  {
    if from >= |s| then None
    else if s[from] == c then Some(from)
    else IndexOf(s, c, from + 1)
  }

  /** The index of the last `c` in `s[..upto]`. */
  function LastIndexOf(s: string, c: char, upto: nat): (r: Option<nat>)
    requires upto <= |s|
    ensures r.Some? ==> r.value < upto && s[r.value] == c
    ensures r.Some? ==> forall k :: r.value < k < upto ==> s[k] != c
    ensures r.None? ==> forall k :: 0 <= k < upto ==> s[k] != c
  {
    if upto == 0 then None
    else if s[upto - 1] == c then Some(upto - 1)
    else LastIndexOf(s, c, upto - 1)
  }

  /** A half-open range `[start, end)` of the reply. */
  datatype Span = Span(start: nat, end: nat)

  /** `s[start..end]` is text of the form `{ ... }`, i.e. matches /\{[\s\S]*\}/. */
  predicate BraceMatch(s: string, start: int, end: int)
  {
    0 <= start && start + 2 <= end <= |s| && s[start] == '{' && s[end - 1] == '}'
  }

  /**
   * `fullResponse.match(/\{[\s\S]*\}/)`: from the first `{` to the last
   * `}`, inclusive, provided that `}` comes after that `{`.
   */
  function JsonSpan(s: string): (r: Option<Span>)
    ensures r.Some? ==> BraceMatch(s, r.value.start, r.value.end)
    ensures r.Some? ==> forall k :: 0 <= k < r.value.start ==> s[k] != '{'
    ensures r.Some? ==> forall k :: r.value.end <= k < |s| ==> s[k] != '}'
    ensures r.None? <==> forall i, j :: 0 <= i < j < |s| && s[i] == '{' ==> s[j] != '}'
  {
    match (IndexOf(s, '{', 0), LastIndexOf(s, '}', |s|))
    case (Some(i), Some(j)) => if i < j then Some(Span(i, j + 1)) else None
    case _ => None
  }

  /**
   * The span is what a leftmost, greedy regular-expression match returns:
   * it starts at the leftmost position where any match starts, and among
   * matches starting there it is the longest. No span means no match.
   */
  lemma JsonSpanIsLeftmostLongest(s: string)
    ensures JsonSpan(s).None? <==> forall i, j :: !BraceMatch(s, i, j)
    ensures JsonSpan(s).Some? ==> forall i, j :: BraceMatch(s, i, j) ==>
              JsonSpan(s).value.start <= i && (i == JsonSpan(s).value.start ==> j <= JsonSpan(s).value.end)
  {
  }

  /**
   * A reply that wraps one JSON object in prose without braces yields
   * exactly that object's text.
   */
  lemma WrappedObjectSpan(before: string, obj: string, after: string)
    requires '{' !in before && '}' !in after
    requires |obj| >= 2 && obj[0] == '{' && obj[|obj| - 1] == '}'
    ensures var s := before + obj + after;
      JsonSpan(s) == Some(Span(|before|, |before| + |obj|)) &&
      s[|before|..|before| + |obj|] == obj
  {
    var s := before + obj + after;
    assert s[|before|] == '{' && s[|before| + |obj| - 1] == '}';
    assert forall k :: 0 <= k < |before| ==> s[k] == before[k];
    assert forall k :: |before| + |obj| <= k < |s| ==> s[k] == after[k - |before| - |obj|];
    assert s[|before|..|before| + |obj|] == obj;
  }

  // ---------------------------------------------------------------------
  // answer / codeSnippet

  /** The fields of the parsed object that the handler reads. */
  datatype Extracted = Extracted(answer: Option<string>, codeSnippet: Option<string>)

  /** The text of the matched span, braces included. */
  function SpanText(s: string, sp: Span): (r: string)
    requires BraceMatch(s, sp.start, sp.end)
    ensures |r| == sp.end - sp.start >= 2 && r[0] == '{' && r[|r| - 1] == '}'
    ensures forall k :: 0 <= k < |r| ==> r[k] == s[sp.start + k]
  {
    s[sp.start..sp.end]
  }

  /**
   * `JSON.parse(jsonMatch[0])` when there is a match: `None` when there is
   * no span or when parsing it throws (both end in the raw-text fallback).
   */
  function Parsed(reply: string, parse: string -> Option<Extracted>): (r: Option<Extracted>)
    ensures JsonSpan(reply).None? ==> r.None?
    ensures JsonSpan(reply).Some? ==> r == parse(SpanText(reply, JsonSpan(reply).value))
  {
    match JsonSpan(reply)
    case None => None
    case Some(sp) => parse(SpanText(reply, sp))
  }

  /**
   * The decision tree of lines 63-80: what `answer` and `codeSnippet` are
   * once the reply has been examined.
   */
  ghost predicate ExtractedAs(reply: string, parse: string -> Option<Extracted>, answer: string, codeSnippet: string)
  {
    match Parsed(reply, parse)
    case None => answer == reply && codeSnippet == ""
    case Some(x) =>
      (Js.Truthy(x.answer) ==> answer == x.answer.value) &&
      (!Js.Truthy(x.answer) ==> answer == NoAnswerFound) &&
      (Js.Truthy(x.codeSnippet) ==> codeSnippet == x.codeSnippet.value) &&
      (!Js.Truthy(x.codeSnippet) ==> codeSnippet == "")
  }

  /** Lines 63-80: the reply extraction, with its try/catch fallbacks. */
  method ExtractAnswer(fullResponse: string, parse: string -> Option<Extracted>)
    returns (answer: string, codeSnippet: string)
    ensures ExtractedAs(fullResponse, parse, answer, codeSnippet)
  {
    answer := Placeholder;
    codeSnippet := "";
    var jsonMatch := JsonSpan(fullResponse);
    if jsonMatch.Some? {
      var extracted := parse(fullResponse[jsonMatch.value.start..jsonMatch.value.end]);
      if extracted.Some? {
        answer := Js.Or(extracted.value.answer, NoAnswerFound);
        codeSnippet := Js.Or(extracted.value.codeSnippet, "");
      } else {
        // JSON.parse threw: the catch block falls back to the whole reply
        answer := fullResponse;
      }
    } else {
      answer := fullResponse;
    }
  }

  /** `answer` and `codeSnippet` are determined by the reply and the parser. */
  lemma ExtractedAsIsFunctional(reply: string, parse: string -> Option<Extracted>, a1: string, c1: string, a2: string, c2: string)
    requires ExtractedAs(reply, parse, a1, c1) && ExtractedAs(reply, parse, a2, c2)
    ensures a1 == a2 && c1 == c2
  {
  }

  /**
   * Every path overwrites the initial placeholder: it comes out only when
   * the reply itself, or the parsed `answer` field, is that very text.
   */
  lemma PlaceholderNeverDefault(reply: string, parse: string -> Option<Extracted>, answer: string, codeSnippet: string)
    requires ExtractedAs(reply, parse, answer, codeSnippet)
    requires answer == Placeholder
    ensures reply == Placeholder || Parsed(reply, parse) == Some(Extracted(Some(Placeholder), Parsed(reply, parse).value.codeSnippet))
  {
  }

  /** A span that `JSON.parse` rejects falls back to the whole reply, with no code. */
  lemma ParseFailureMeansRawText(reply: string, parse: string -> Option<Extracted>, answer: string, codeSnippet: string)
    requires JsonSpan(reply).Some? && parse(SpanText(reply, JsonSpan(reply).value)).None?
    requires ExtractedAs(reply, parse, answer, codeSnippet)
    ensures answer == reply && codeSnippet == ""
  {
  }

  /** A reply without a `{` followed later by a `}` is returned as the answer, with no code. */
  lemma NoBracesMeansRawText(reply: string, parse: string -> Option<Extracted>, answer: string, codeSnippet: string)
    requires '{' !in reply || '}' !in reply || (forall i, j :: 0 <= i < j < |reply| && reply[i] == '{' ==> reply[j] != '}')
    requires ExtractedAs(reply, parse, answer, codeSnippet)
    ensures answer == reply && codeSnippet == ""
  {
  }

  // ---------------------------------------------------------------------
  // The completion and the reply text

  datatype Message = Message(content: Option<string>)
  datatype Choice = Choice(message: Option<Message>)

  /** The reply text: the content of the first choice's message, or empty when any part is missing. */
  function FullResponse(choices: seq<Choice>): (r: string)
    ensures (|choices| == 0 || choices[0].message.None? || !Js.Truthy(choices[0].message.value.content)) <==> r == ""
    ensures r != "" ==> Some(r) == choices[0].message.value.content
  {
    if |choices| == 0 then ""
    else match choices[0].message
      case None => ""
      case Some(m) => Js.Or(m.content, "")
  }

  /** An empty reply takes the no-span branch: the answer is empty and there is no code. */
  lemma EmptyReplyAnswer(choices: seq<Choice>, parse: string -> Option<Extracted>, answer: string, codeSnippet: string)
    requires |choices| == 0 || choices[0].message.None? || !Js.Truthy(choices[0].message.value.content)
    requires ExtractedAs(FullResponse(choices), parse, answer, codeSnippet)
    ensures answer == "" && codeSnippet == ""
  {
  }

  // ---------------------------------------------------------------------
  // Prompt preparation

  /** An uploaded file: its name and its text (`file.text()`). */
  datatype UploadedFile = UploadedFile(name: string, text: string)

  /** The multipart form: `prompt` and `file`, either of which may be missing. */
  datatype ChatForm = ChatForm(prompt: Option<string>, file: Option<UploadedFile>)

  /** The prompt sent in the form, or empty when it is missing. */
  function PromptText(form: ChatForm): (r: string)
    ensures Js.Truthy(form.prompt) ==> r == form.prompt.value
    ensures !Js.Truthy(form.prompt) ==> r == ""
  {
    Js.Or(form.prompt, "")
  }

  /** `fileText`: the file's text, or empty when no file was sent. */
  function FileText(form: ChatForm): (r: string)
    ensures form.file.Some? ==> r == form.file.value.text
    ensures form.file.None? ==> r == ""
  {
    match form.file
    case Some(f) => f.text
    case None => ""
  }

  /** The part of the file's text embedded in the system message: its first 1000 characters, or a fixed notice when it is empty. */
  function FileExcerpt(fileText: string): (r: string)
    ensures fileText == "" ==> r == NoFileContent
    ensures fileText != "" ==> r <= fileText && |r| <= ExcerptLength
    ensures fileText != "" && |fileText| <= ExcerptLength ==> r == fileText
    ensures fileText != "" && |fileText| > ExcerptLength ==> |r| == ExcerptLength
  {
    if fileText != "" then Js.Slice(fileText, ExcerptLength) else NoFileContent
  }

  /** Truncating an excerpt again changes nothing. */
  lemma FileExcerptIdempotent(fileText: string)
    ensures FileExcerpt(FileExcerpt(fileText)) == FileExcerpt(fileText)
  {
  }

  const SystemHead: string :=
    "\n      You are a data analysis AI. The user has uploaded the following file contents:\n      "
  const SystemTail: string :=
    "\n      (Note: only partial or truncated content shown if very large.)\n\n"
    + "      The user will ask questions or request code to generate charts.\n"
    + "      Return two fields in JSON:\n"
    + "       1. \"answer\": your direct answer or explanation\n"
    + "       2. \"codeSnippet\": a minimal python script that can be embedded in the UI\n"
    + "          to visualize the data in some chart and when executed will generate the chart. Keep it short if possible.\n\n"
    + "        If no chart type is specified, use a chart that you feel is most appropriate.\n    "

  /** The system message: the fixed instructions around the file excerpt. */
  function SystemMessage(form: ChatForm): (r: string)
    ensures |r| == |SystemHead| + |FileExcerpt(FileText(form))| + |SystemTail|
    ensures r[..|SystemHead|] == SystemHead
    ensures r[|SystemHead|..|r| - |SystemTail|] == FileExcerpt(FileText(form))
    ensures r[|r| - |SystemTail|..] == SystemTail
  {
    var excerpt := FileExcerpt(FileText(form));
    SystemHead + excerpt + SystemTail
  }

  const UserHead: string := "\n      User Prompt: "
  const UserMiddle: string := "\n      File Provided: "
  const UserTail: string := "\n    "

  /** How the user message names the file: its name, or 'no file' when none was sent. */
  function FileLabel(form: ChatForm): (r: string)
    ensures form.file.Some? ==> r == form.file.value.name
    ensures form.file.None? ==> r == NoFile
  {
    match form.file
    case Some(f) => f.name
    case None => NoFile
  }

  /** The user message: the prompt, then the name of the file or 'no file'. */
  function UserMessage(form: ChatForm): (r: string)
    ensures var p, f := PromptText(form), FileLabel(form);
      |r| == |UserHead| + |p| + |UserMiddle| + |f| + |UserTail| &&
      r[..|UserHead|] == UserHead &&
      r[|UserHead|..|UserHead| + |p|] == p &&
      r[|UserHead| + |p|..|UserHead| + |p| + |UserMiddle|] == UserMiddle &&
      r[|UserHead| + |p| + |UserMiddle|..|r| - |UserTail|] == f &&
      r[|r| - |UserTail|..] == UserTail
  {
    var p, f := PromptText(form), FileLabel(form);
    UserHead + p + UserMiddle + f + UserTail
  }

  // ---------------------------------------------------------------------
  // The handler

  /** What the completion request gives back: the choices, or the message of the error it threw. */
  datatype Completion = Completed(choices: seq<Choice>) | Threw(message: string)

  datatype ChatResponse =
    | Answered(answer: string, codeSnippet: string)   // status 200
    | ServerError(error: string)                      // status 500
  {
    function Status(): int { if Answered? then 200 else 500 }
  }

  /** `POST /api/chat` */
  method Post(form: ChatForm, complete: (string, string) -> Completion, parse: string -> Option<Extracted>)
    returns (resp: ChatResponse)
    ensures complete(SystemMessage(form), UserMessage(form)).Threw? ==>
              resp == ServerError(complete(SystemMessage(form), UserMessage(form)).message)
    ensures complete(SystemMessage(form), UserMessage(form)).Completed? ==>
              resp.Answered? &&
              ExtractedAs(FullResponse(complete(SystemMessage(form), UserMessage(form)).choices),
                          parse, resp.answer, resp.codeSnippet)
  {
    var systemMessage := SystemMessage(form);
    var userMessage := UserMessage(form);
    var chatCompletion := complete(systemMessage, userMessage);
    if chatCompletion.Threw? {
      return ServerError(chatCompletion.message);
    }
    var fullResponse := FullResponse(chatCompletion.choices);
    var answer, codeSnippet := ExtractAnswer(fullResponse, parse);
    resp := Answered(answer, codeSnippet);
  }
}
