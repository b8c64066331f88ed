/**
 * What the script gets from outside: parsed links, fetched pages and PDFs,
 * the URL joiner, the case mapping, the language-model reply and the environment.
 * Each is a given value here; nothing is fetched.
 */
module Externals {
  import opened Wrappers

  /** An `<a>` element as BeautifulSoup reports it: its stripped text and its `href` attribute, if any. */
  datatype Anchor = Anchor(title: string, href: Option<string>)

  /** The outcome of the language-model request: the reply text, or the text of the exception raised. */
  datatype Reply = Answer(content: string) | Raised(error: string)

  /**
   * The outside world during one run.
   * - `fold`: the character case mapping behind `str.lower()` and `re.IGNORECASE`;
   * - `join`: `urljoin(base, href)`;
   * - `page`: `get_soup(url)`, the anchors of the page, or `None` when the GET or the parse failed;
   * - `pdf`: the text of each page of the PDF at a URL (`None` for a page yielding no text), or `None`
   *   when the download or the PDF parser raised;
   * - `gpt`: the reply to a prompt built from the text excerpt, the title and the publisher.
   */
  datatype World = World(
    fold: char -> char,
    join: (string, string) -> string,
    page: string -> Option<seq<Anchor>>,
    pdf: string -> Option<seq<Option<string>>>,
    gpt: (string, string, string) -> Reply)

  /** Which secrets are set: both Telegram variables, and the OpenAI key. */
  datatype Config = Config(telegram: bool, openAi: bool)

  /**
   * An observable effect of a run:
   * - `Get(url)`: an HTTP GET of a page or a PDF;
   * - `Sent(url, message)`: `send_telegram(message)` called for the listing URL `url`;
   * - `Record(url)`: `save_history(url)`.
   */
  datatype Event = Get(url: string) | Sent(url: string, message: string) | Record(url: string)
}
