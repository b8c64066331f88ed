/** The analysis of an extracted text and the Telegram message built around it. */
module Report {
  import opened Text
  import opened Externals

  /** Opening of the analysis when no OpenAI key is configured. */
  const NoKeyNotice: string := "\U{26A0}\U{FE0F} Ключ OpenAI не найден. Вот начало текста:\n"

  /** Characters of raw text quoted without a key, after a failed request, and sent in the prompt. */
  const NoKeyExcerpt: nat := 600
  const FailureExcerpt: nat := 500
  const PromptBudget: nat := 12000

  /** Headers of the two kinds of message. */
  const CbrHeader: string := "\U{1F3E6} **ЦБ РФ: НОВЫЙ ОТЧЕТ**"
  const MinecHeader: string := "\U{1F4C9} **МИНЭК (ДАННЫЕ РОССТАТА)**"

  /** `r` is `lead`, then the first `n` characters of `text`, then `"..."`. */
  predicate MarkedExcerpt(r: string, lead: string, text: string, n: nat)
  {
    |r| == |lead| + Min(n, |text|) + 3
    && r[..|lead|] == lead
    && r[|lead|..|r| - 3] == text[..Min(n, |text|)]
    && r[|r| - 3..] == "..."
  }

  /** The analysis without a key: an explicit notice, a literal excerpt of the text, and an ellipsis. */
  function NoKeyAnalysis(text: string): (r: string)
    ensures MarkedExcerpt(r, NoKeyNotice, text, NoKeyExcerpt)
    ensures |r| <= |NoKeyNotice| + NoKeyExcerpt + 3
  {
    NoKeyNotice + Take(text, NoKeyExcerpt) + "..."
  }

  /** The lead of the analysis when the request raised `error`. */
  function FailureLead(error: string): string
  {
    "Ошибка GPT: " + error + ". Сырой текст: "
  }

  /**
   * `analyze_with_gpt`: never fails. Without a key, the marked excerpt; with a key, the reply, or,
   * when the request raised, the error and a shorter marked excerpt.
   */
  function Analyze(cfg: Config, w: World, text: string, title: string, publisher: string): (r: string)
    ensures !cfg.openAi ==> MarkedExcerpt(r, NoKeyNotice, text, NoKeyExcerpt)
    ensures cfg.openAi ==>
      match w.gpt(Take(text, PromptBudget), title, publisher)
      case Answer(content) => r == content
      case Raised(error) => MarkedExcerpt(r, FailureLead(error), text, FailureExcerpt)
  {
    if !cfg.openAi then NoKeyAnalysis(text)
    else
      match w.gpt(Take(text, PromptBudget), title, publisher)
      case Answer(content) => content
      case Raised(error) => FailureLead(error) + Take(text, FailureExcerpt) + "..."
  }

  /** The Telegram message announcing a report: header, title, analysis and the link to the PDF. */
  function Compose(header: string, title: string, analysis: string, pdfUrl: string): (msg: string)
    ensures |msg| > |header| + |title| + |analysis| + |pdfUrl|
    ensures msg[..|header|] == header
    ensures OccursAt(msg, title, |header| + 5)
    ensures OccursAt(msg, analysis, |header| + |title| + 8)
    ensures EndsWith(msg, "(" + pdfUrl + ")")
  {
    var before := header + "\n\n\U{1F4C4} *" + title + "*\n\n";
    var after := "\n\n\U{1F517} [Читать оригинал](" + pdfUrl + ")";
    assert |before| == |header| + |title| + 8;
    var msg := before + analysis + after;
    assert msg[|header| + 5..|header| + 5 + |title|] == title;
    assert msg[|before|..|before| + |analysis|] == analysis;
    msg
  }
}
