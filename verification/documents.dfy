/** Fetched and parsed pages, as the extractors see them. Parsing is not
    modelled: a page is given by the parts the extractors query. */
module Documents {
  import opened Wrappers

  /** An `<a>` element in document order. `str` is BeautifulSoup's `.string`
      (absent unless the anchor holds a single piece of text); `href` is the
      attribute, if present. */
  datatype Anchor = Anchor(str: Option<string>, href: Option<string>)

  /** One element in a flat run of siblings: its tag name and its stripped text. */
  datatype Element = Element(tag: string, text: string)

  /** A parsed page.
      - `anchors`: every `<a>`, in document order;
      - `text`: `get_text()`, all text with no separator;
      - `spacedText`: `get_text(" ", strip=True)`;
      - `main`, `body`: the newline-separated text of `<main>` and `<body>`, when present;
      - `siblings`: the sibling elements holding the page's `strong`/`b` and `p` tags. */
  datatype Doc = Doc(
    anchors: seq<Anchor>,
    text: string,
    spacedText: string,
    main: Option<string>,
    body: Option<string>,
    siblings: seq<Element>)

  /** `fetch_soup(url)`: the parsed page, or the message of the
      `WebsiteNotFoundException` it raises. */
  datatype Fetched = Ok(doc: Doc) | Err(msg: string)

  /** `link.get("href")` is truthy. */
  predicate HasHref(a: Anchor)
  {
    a.href.Some? && a.href.value != ""
  }
}
