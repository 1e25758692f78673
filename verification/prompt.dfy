/** `LyricPrompt`: the messages sent to the text generator. A prompt has a
    language, which must be Chinese or English, and an error token the
    generator is told to emit when it cannot write lyrics. The user message
    is a list of requirements, each a template whose placeholders are filled
    in by one pass of `str.format`. */
module Prompts {
  import opened Results
  import opened Text

  const SupportedLanguages: seq<string> := ["zh", "en"]

  /** The token the generator is told to emit when it cannot write lyrics. */
  const DefaultErrorMessage: string := "[error]"

  datatype Language = Zh | En

  function LanguageCode(lang: Language): string {
    match lang
    case Zh => "zh"
    case En => "en"
  }

  datatype LyricPrompt = LyricPrompt(lang: Language, errorMessage: string)

  /** The constructor: any language code other than "zh" or "en" raises. */
  function NewLyricPrompt(lang: string, errorMessage: string): (r: Result<LyricPrompt>)
    ensures r.Ok? <==> lang in SupportedLanguages
    ensures r.Ok? ==> LanguageCode(r.value.lang) == lang && r.value.errorMessage == errorMessage
    ensures r.Err? ==> r.error == LanguageNotSupported(lang)
  {
    if lang == "zh" then Ok(LyricPrompt(Zh, errorMessage))
    else if lang == "en" then Ok(LyricPrompt(En, errorMessage))
    else Err(LanguageNotSupported(lang))
  }

  /** The keyword arguments of `get_user_prompt`. */
  datatype PromptArgs = PromptArgs(userDemands: string, contextBefore: string, contextAfter: string, numLines: int)

  /** The line count asked for when the caller gives none. */
  const DefaultNumLines: int := 4

  // ---------------------------------------------------------------- templates

  datatype Field = UserDemands | ErrorMessage | NumLines | ContextBefore | ContextAfter

  /** The fixed pieces of text the templates are made of. */
  datatype Phrase =
    | ZhOpening | ZhFullStop | ZhWriteChinese | ZhNoStructure | ZhBodyOnly | ZhMarkers
    | ZhErrorLead | ZhCountLead | ZhCountTail | ZhContinuationLead | ZhInsertionLead
    | EnOpening | EnDemandsLead | EnFullStop | EnWriteEnglish | EnNoStructure | EnSeparateLines
    | EnMarkers | EnErrorLead | EnCountLead | EnCountTail | EnContextLead

  function PhraseText(ph: Phrase): string {
    match ph
    case ZhOpening => "我会为你提供一个要求列表，你需要严格遵循每一条要求生成歌词。列表中的每一条要求都以(R)开头。(R) 请遵循如下歌词创作风格、内容等要求："
    case ZhFullStop => "。"
    case ZhWriteChinese => "(R) 使用中文创作歌词。"
    case ZhNoStructure => "(R) 不要包含任何音乐段落和结构名，例如chorus或verse"
    case ZhBodyOnly => "(R) 仅输出新生成歌词的正文，每句歌词独立成行。"
    case ZhMarkers => "(R) 在歌词开始之前输出[start]，歌词结束后输出[end]。"
    case ZhErrorLead => "(R) 若无法生成歌词，请输出"
    case ZhCountLead => "。(R) 歌词行数在"
    case ZhCountTail => "行左右。"
    case ZhContinuationLead => "(R) 新生成的歌词需要衔接上文，歌词上文如下："
    case ZhInsertionLead => "(R) 新生成的歌词需要衔接下文，歌词下文如下："
    case EnOpening => "I will provide you with a list of requirements, and you need to strictly generate lyrics according to each requirement. Each item on the list starts with (R)."
    case EnDemandsLead => "(R) Follow the following description regarding lyric contents or styles: "
    case EnFullStop => "."
    case EnWriteEnglish => "(R) Write lyrics in English."
    case EnNoStructure => "(R) Do not mention or use any music structure names such as intro, chorus, verse."
    case EnSeparateLines => "(R) Just write the generated lines with each line being separate and distinct."
    case EnMarkers => "(R) Output [start] before the lyrics begin and [end] after the lyrics end."
    case EnErrorLead => "(R) If you cannot generate the lyrics, output "
    case EnCountLead => ".(R) Please provide around "
    case EnCountTail => " lines of new lyrics."
    case EnContextLead => "(R) The newly generated lyrics need to seamlessly connect to the previous lyrics. Previous lyrics are as follows: "
  }

  /** A piece of a template: fixed text, or a `{placeholder}`. */
  datatype Segment = Text(phrase: Phrase) | Hole(field: Field) | LineBreak

  type Template = seq<Segment>

  function FieldValue(f: Field, p: LyricPrompt, a: PromptArgs): string {
    match f
    case UserDemands => a.userDemands
    case ErrorMessage => p.errorMessage
    case NumLines => IntToDecimal(a.numLines)
    case ContextBefore => a.contextBefore
    case ContextAfter => a.contextAfter
  }

  /** The text one segment contributes when the template is formatted for
      prompt `p` and arguments `a`. */
  function SegmentText(s: Segment, p: LyricPrompt, a: PromptArgs): string {
    match s
    case Text(ph) => PhraseText(ph)
    case Hole(f) => FieldValue(f, p, a)
    case LineBreak => "\n"
  }

  /** `str.format` on a template, `text` giving each segment's contribution:
      the placeholders' values are never re-read as templates. */
  function Render(t: Template, text: Segment -> string): string
    decreases |t|
  {
    if |t| == 0 then "" else text(t[0]) + Render(t[1..], text)
  }

  lemma {:induction false} RenderConcat(t: Template, u: Template, text: Segment -> string)
    ensures Render(t + u, text) == Render(t, text) + Render(u, text)
    decreases |t|
  {
    if |t| == 0 {
      assert t + u == u;
    } else {
      assert (t + u)[1..] == t[1..] + u;
      RenderConcat(t[1..], u, text);
    }
  }

  /** Every segment's text appears in the rendered template. */
  lemma {:induction false} RenderShowsSegment(t: Template, i: nat, text: Segment -> string)
    requires i < |t|
    ensures IsInfix(text(t[i]), Render(t, text))
    decreases |t|
  {
    var head := text(t[0]);
    var rest := Render(t[1..], text);
    assert Render(t, text) == head + rest;
    if i == 0 {
      InfixOfConcat("", head, rest);
      assert "" + head + rest == head + rest;
    } else {
      RenderShowsSegment(t[1..], i - 1, text);
      InfixOfConcat(head, rest, "");
      assert head + rest + "" == head + rest;
      InfixTransitive(text(t[i]), rest, head + rest);
    }
  }

  /** The requirement templates joined by newlines, as `"\n".join` does before
      `format` is applied. */
  function JoinTemplates(ts: seq<Template>): Template
    decreases |ts|
  {
    if |ts| == 0 then []
    else if |ts| == 1 then ts[0]
    else ts[0] + [LineBreak] + JoinTemplates(ts[1..])
  }

  function RenderAll(ts: seq<Template>, text: Segment -> string): (r: seq<string>)
    ensures |r| == |ts|
    ensures forall i :: 0 <= i < |ts| ==> r[i] == Render(ts[i], text)
  {
    seq(|ts|, i requires 0 <= i < |ts| => Render(ts[i], text))
  }

  /** Formatting the joined templates is joining the formatted requirements:
      no placeholder spans two requirements. */
  lemma {:induction false} RenderJoinTemplates(ts: seq<Template>, text: Segment -> string)
    requires text(LineBreak) == "\n"
    ensures Render(JoinTemplates(ts), text) == Join(RenderAll(ts, text), "\n")
    decreases |ts|
  {
    if |ts| == 1 {
      assert Render(JoinTemplates(ts), text) == Render(ts[0], text);
    } else if |ts| > 1 {
      RenderJoinTemplates(ts[1..], text);
      RenderConcat(ts[0] + [LineBreak], JoinTemplates(ts[1..]), text);
      RenderConcat(ts[0], [LineBreak], text);
      assert Render([LineBreak], text) == "\n" + "";
      assert RenderAll(ts, text)[1..] == RenderAll(ts[1..], text);
    }
  }

  /** A segment anywhere in a list of templates shows its text in the
      joined, rendered list. */
  lemma RenderJoinShowsSegment(ts: seq<Template>, i: nat, j: nat, text: Segment -> string)
    requires text(LineBreak) == "\n"
    requires i < |ts| && j < |ts[i]|
    ensures IsInfix(text(ts[i][j]), Render(JoinTemplates(ts), text))
  {
    RenderJoinTemplates(ts, text);
    JoinedPartIsInfix(RenderAll(ts, text), "\n", i);
    RenderShowsSegment(ts[i], j, text);
    InfixTransitive(text(ts[i][j]), Render(ts[i], text), Render(JoinTemplates(ts), text));
  }

  // ---------------------------------------------------------------- the requirement lists

  /** The item of the general list that carries the user's demands: the
      Chinese list opens with it (merged with the preamble), the English list
      has the preamble as an item of its own. */
  function DemandsItem(lang: Language): nat {
    match lang
    case Zh => 0
    case En => 1
  }

  /** The requirements always present. Adjacent literals with no comma
      between them are one list item in the source, so the Chinese list has
      six items and the English list seven. The user's demands fill the
      demands item; the error token and the line count both fill the last
      item. */
  function GeneralRequirements(lang: Language): (r: seq<Template>)
    ensures DemandsItem(lang) < |r| - 1
    ensures |r[DemandsItem(lang)]| == 3 && r[DemandsItem(lang)][1] == Hole(UserDemands)
    ensures |r[|r| - 1]| == 5 && r[|r| - 1][1] == Hole(ErrorMessage) && r[|r| - 1][3] == Hole(NumLines)
  {
    match lang
    case Zh => [
      [Text(ZhOpening), Hole(UserDemands), Text(ZhFullStop)],
      [Text(ZhWriteChinese)],
      [Text(ZhNoStructure)],
      [Text(ZhBodyOnly)],
      [Text(ZhMarkers)],
      [Text(ZhErrorLead), Hole(ErrorMessage), Text(ZhCountLead), Hole(NumLines), Text(ZhCountTail)]
    ]
    case En => [
      [Text(EnOpening)],
      [Text(EnDemandsLead), Hole(UserDemands), Text(EnFullStop)],
      [Text(EnWriteEnglish)],
      [Text(EnNoStructure)],
      [Text(EnSeparateLines)],
      [Text(EnMarkers)],
      [Text(EnErrorLead), Hole(ErrorMessage), Text(EnCountLead), Hole(NumLines), Text(EnCountTail)]
    ]
  }

  /** The requirement added when there are lyrics before the generated part. */
  function ContinuationRequirement(lang: Language): (r: Template)
    ensures |r| == 3 && r[1] == Hole(ContextBefore)
  {
    match lang
    case Zh => [Text(ZhContinuationLead), Hole(ContextBefore), Text(ZhFullStop)]
    case En => [Text(EnContextLead), Hole(ContextBefore), Text(EnFullStop)]
  }

  /** The requirement added when there are lyrics after the generated part.
      The English wording speaks of "previous lyrics" here too. */
  function InsertionRequirement(lang: Language): (r: Template)
    ensures |r| == 3 && r[1] == Hole(ContextAfter)
  {
    match lang
    case Zh => [Text(ZhInsertionLead), Hole(ContextAfter), Text(ZhFullStop)]
    case En => [Text(EnContextLead), Hole(ContextAfter), Text(EnFullStop)]
  }

  /** `requirements[lang]` after the two conditional appends: the general
      list, then the continuation requirement iff the preceding context is not
      blank, then the insertion requirement iff the following context is not
      blank. */
  function Assemble(general: seq<Template>, continuation: Template, insertion: Template, a: PromptArgs): (r: seq<Template>)
    ensures |r| == |general| + (if IsBlank(a.contextBefore) then 0 else 1) + (if IsBlank(a.contextAfter) then 0 else 1)
    ensures forall i :: 0 <= i < |general| ==> r[i] == general[i]
    ensures !IsBlank(a.contextBefore) ==> r[|general|] == continuation
    ensures !IsBlank(a.contextAfter) ==> r[|r| - 1] == insertion
  {
    general
      + (if IsBlank(a.contextBefore) then [] else [continuation])
      + (if IsBlank(a.contextAfter) then [] else [insertion])
  }

  function Requirements(lang: Language, a: PromptArgs): seq<Template> {
    Assemble(GeneralRequirements(lang), ContinuationRequirement(lang), InsertionRequirement(lang), a)
  }

  // ---------------------------------------------------------------- messages

  datatype Role = System | User

  function RoleName(role: Role): string {
    match role
    case System => "system"
    case User => "user"
  }

  datatype Message = Message(role: Role, content: string)

  function SystemContent(lang: Language): string {
    match lang
    case Zh => "你是一个专业、才华横溢的音乐人，并且严格遵循用户需求提供作词服务。"
    case En => "You are a professional and talented musician who provides songwriting services and strictly adheres to user requirements."
  }

  /** The system message: the description of the lyric writer in the
      prompt's language, sent with the role name "system". */
  function SystemPrompt(p: LyricPrompt): (m: Message)
    ensures m.role == System && RoleName(m.role) == "system"
    ensures m.content == SystemContent(p.lang)
  {
    Message(System, SystemContent(p.lang))
  }

  /** `str.format` with the prompt's language and the run's arguments. */
  function Format(p: LyricPrompt, a: PromptArgs): Segment -> string {
    s => SegmentText(s, p, a)
  }

  /** The user message: the requirement list joined by newlines, formatted. */
  function UserPrompt(p: LyricPrompt, a: PromptArgs): (m: Message)
    ensures m.role == User
  {
    Message(User, Render(JoinTemplates(Requirements(p.lang, a)), Format(p, a)))
  }

  /** The user message's text is the formatted requirements joined by
      newlines, one requirement per line. */
  lemma UserPromptJoinsRequirements(p: LyricPrompt, a: PromptArgs)
    ensures UserPrompt(p, a).content == Join(RenderAll(Requirements(p.lang, a), Format(p, a)), "\n")
  {
    RenderJoinTemplates(Requirements(p.lang, a), Format(p, a));
  }

  /** A placeholder anywhere in the requirement list shows its value in the
      user message. */
  lemma UserPromptShowsField(p: LyricPrompt, a: PromptArgs, i: nat, j: nat, f: Field)
    requires i < |Requirements(p.lang, a)| && j < |Requirements(p.lang, a)[i]|
    requires Requirements(p.lang, a)[i][j] == Hole(f)
    ensures IsInfix(FieldValue(f, p, a), UserPrompt(p, a).content)
  {
    RenderJoinShowsSegment(Requirements(p.lang, a), i, j, Format(p, a));
  }

  /** The user message quotes the user's demands. */
  lemma UserPromptShowsDemands(p: LyricPrompt, a: PromptArgs)
    ensures IsInfix(a.userDemands, UserPrompt(p, a).content)
  {
    UserPromptShowsField(p, a, DemandsItem(p.lang), 1, UserDemands);
  }

  /** The user message names the error token. */
  lemma UserPromptShowsErrorMessage(p: LyricPrompt, a: PromptArgs)
    ensures IsInfix(p.errorMessage, UserPrompt(p, a).content)
  {
    UserPromptShowsField(p, a, |GeneralRequirements(p.lang)| - 1, 1, ErrorMessage);
  }

  /** The user message states the line count in decimal. */
  lemma UserPromptShowsLineCount(p: LyricPrompt, a: PromptArgs)
    ensures IsInfix(IntToDecimal(a.numLines), UserPrompt(p, a).content)
  {
    UserPromptShowsField(p, a, |GeneralRequirements(p.lang)| - 1, 3, NumLines);
  }

  /** A preceding context that is not blank is quoted in the user message. */
  lemma UserPromptShowsContextBefore(p: LyricPrompt, a: PromptArgs)
    requires !IsBlank(a.contextBefore)
    ensures IsInfix(a.contextBefore, UserPrompt(p, a).content)
  {
    var reqs := Requirements(p.lang, a);
    var g := |GeneralRequirements(p.lang)|;
    assert reqs[g] == ContinuationRequirement(p.lang);
    UserPromptShowsField(p, a, g, 1, ContextBefore);
  }

  /** A following context that is not blank is quoted in the user message. */
  lemma UserPromptShowsContextAfter(p: LyricPrompt, a: PromptArgs)
    requires !IsBlank(a.contextAfter)
    ensures IsInfix(a.contextAfter, UserPrompt(p, a).content)
  {
    var reqs := Requirements(p.lang, a);
    var last := |reqs| - 1;
    assert reqs[last] == InsertionRequirement(p.lang);
    UserPromptShowsField(p, a, last, 1, ContextAfter);
  }

  /** The user message carries every argument it was given: the user's
      demands, the error token, the line count, and each context that is not
      blank. */
  lemma UserPromptCarriesArguments(p: LyricPrompt, a: PromptArgs)
    ensures IsInfix(a.userDemands, UserPrompt(p, a).content)
    ensures IsInfix(p.errorMessage, UserPrompt(p, a).content)
    ensures IsInfix(IntToDecimal(a.numLines), UserPrompt(p, a).content)
    ensures !IsBlank(a.contextBefore) ==> IsInfix(a.contextBefore, UserPrompt(p, a).content)
    ensures !IsBlank(a.contextAfter) ==> IsInfix(a.contextAfter, UserPrompt(p, a).content)
  {
    UserPromptShowsDemands(p, a);
    UserPromptShowsErrorMessage(p, a);
    UserPromptShowsLineCount(p, a);
    if !IsBlank(a.contextBefore) {
      UserPromptShowsContextBefore(p, a);
    }
    if !IsBlank(a.contextAfter) {
      UserPromptShowsContextAfter(p, a);
    }
  }

  /** The prompt for a completion backend: the contents of the system and the
      user message joined by a newline. */
  function CompletionPrompt(p: LyricPrompt, a: PromptArgs): (r: string)
    ensures r == SystemPrompt(p).content + "\n" + UserPrompt(p, a).content
  {
    JoinPair(SystemPrompt(p).content, UserPrompt(p, a).content, "\n");
    Join([SystemPrompt(p).content, UserPrompt(p, a).content], "\n")
  }

  /** The prompt for a chat backend: exactly the system message, then the
      user message. */
  function ChatPrompt(p: LyricPrompt, a: PromptArgs): (r: seq<Message>)
    ensures |r| == 2
    ensures r[0].role == System && r[0].content == SystemContent(p.lang)
    ensures r[1].role == User && r[1].content == UserPrompt(p, a).content
  {
    [SystemPrompt(p), UserPrompt(p, a)]
  }

  /** The chat messages carry the role names "system" and "user", in that
      order. */
  lemma ChatPromptRoles(p: LyricPrompt, a: PromptArgs)
    ensures RoleName(ChatPrompt(p, a)[0].role) == "system"
    ensures RoleName(ChatPrompt(p, a)[1].role) == "user"
  {
  }

  /** Both backends send the same text: the completion prompt is the chat
      messages' contents joined by a newline. */
  lemma CompletionFlattensChat(p: LyricPrompt, a: PromptArgs)
    ensures CompletionPrompt(p, a) == Join([ChatPrompt(p, a)[0].content, ChatPrompt(p, a)[1].content], "\n")
  {
  }

  /** The request a plugin run hands the generator. */
  datatype Request = Request(prompt: LyricPrompt, args: PromptArgs)
}
