/** The extractors of `ScrapingService` (app/services/scraping_service.py):
    matching rules over the homepage's anchors and text, some of which fetch
    one more page. URL joining, the regex engine and fetching are parameters. */
module Extractors {
  import opened Wrappers
  import opened Text
  import opened Seqs
  import opened Models
  import opened Documents

  // ---------------------------------------------------------------- anchors

  /** `find("a", href=re.compile(pattern, re.IGNORECASE))` tests this of each anchor. */
  function HrefPattern(pattern: string): Anchor -> bool
  {
    (a: Anchor) => a.href.Some? && ContainsIgnoringCase(a.href.value, pattern)
  }

  /** `find("a", string=re.compile(keyword, re.IGNORECASE))` tests this of each anchor. */
  function StringPattern(keyword: string): Anchor -> bool
  {
    (a: Anchor) => a.str.Some? && ContainsIgnoringCase(a.str.value, keyword)
  }

  /** `find` picks the first anchor satisfying `p`; its href is used only if
      it is truthy. A later matching anchor is never consulted. */
  function FirstHref(anchors: seq<Anchor>, p: Anchor -> bool): (r: Option<string>)
    ensures r.Some? <==> exists i :: FirstMatchAt(anchors, p, i) && HasHref(anchors[i])
    ensures forall i :: FirstMatchAt(anchors, p, i) && HasHref(anchors[i]) ==> r == Some(anchors[i].href.value)
  {
    match FindFirst(anchors, p)
    case None => None
    case Some(i) =>
      assert forall j :: FirstMatchAt(anchors, p, j) ==> j == i by {
        forall j | FirstMatchAt(anchors, p, j) ensures j == i {
          FirstMatchUnique(anchors, p, i, j);
        }
      }
      if HasHref(anchors[i]) then Some(anchors[i].href.value) else None
  }

  // ------------------------------------------------------------ link lookups

  /** `urljoin(base, href)`: the joined URL, or the message of the
      `ValueError` it raises (an href such as `https://[x` is not a valid
      IPv6 URL). */
  type Joiner = (string, string) -> Result<string, string>

  /** One lookup of lines 68-71 and 118-121: the key it sets and the test
      `find` applies to each anchor. */
  datatype Rule = Rule(key: string, test: Anchor -> bool)

  /** What the lookup yields: `None` when no link is found, otherwise the
      outcome of joining the link's href to the base URL. */
  function LinkOf(base: string, anchors: seq<Anchor>, rule: Rule, join: Joiner): Option<Result<string, string>>
  {
    match FirstHref(anchors, rule.test)
    case None => None
    case Some(href) => Some(join(base, href))
  }

  /** The lookup finds a link whose join raises. */
  function Breaks(base: string, anchors: seq<Anchor>, join: Joiner): Rule -> bool
  {
    (rule: Rule) => LinkOf(base, anchors, rule, join).Some? && LinkOf(base, anchors, rule, join).value.Failure?
  }

  /** The keys a list of rules can set. */
  function KeysOf(rules: seq<Rule>): set<string>
  {
    set i | 0 <= i < |rules| :: rules[i].key
  }

  /** The loop shared by `_extract_social_handles` and
      `_extract_important_links`: the rules are taken in order, a found link
      is stored under the rule's key, and the first join that raises ends
      the loop. Both dictionaries of the source have distinct literal keys. */
  function CollectLinks(base: string, anchors: seq<Anchor>, rules: seq<Rule>, join: Joiner)
    : (r: Result<map<string, string>, string>)
    requires DistinctKeys(rules)
    ensures r.Success? <==> forall i :: 0 <= i < |rules| ==> !Breaks(base, anchors, join)(rules[i])
    ensures forall i :: FirstMatchAt(rules, Breaks(base, anchors, join), i) ==>
      r == Failure(LinkOf(base, anchors, rules[i], join).value.error)
    ensures r.Success? ==> r.value.Keys <= KeysOf(rules)
    ensures r.Success? ==> forall i :: 0 <= i < |rules| ==>
      (rules[i].key in r.value <==> LinkOf(base, anchors, rules[i], join).Some?)
    ensures r.Success? ==> forall i :: 0 <= i < |rules| && LinkOf(base, anchors, rules[i], join).Some? ==>
      LinkOf(base, anchors, rules[i], join).value == Success(r.value[rules[i].key])
  {
    if |rules| == 0 then Success(map[])
    else
      var rest := CollectLinks(base, anchors, rules[1..], join);
      ShiftRules(base, anchors, rules, join);
      match LinkOf(base, anchors, rules[0], join)
      case None => rest
      case Some(Failure(e)) => Failure(e)
      case Some(Success(url)) =>
        match rest
        case Failure(e) => Failure(e)
        case Success(m) => Success(m[rules[0].key := url])
  }

  /** How the facts about `rules[1..]` carry over to `rules`. */
  lemma ShiftRules(base: string, anchors: seq<Anchor>, rules: seq<Rule>, join: Joiner)
    requires |rules| > 0 && DistinctKeys(rules)
    ensures DistinctKeys(rules[1..])
    ensures KeysOf(rules) == {rules[0].key} + KeysOf(rules[1..])
    ensures forall i :: 0 < i < |rules| ==> rules[i].key != rules[0].key
    ensures forall i :: 1 <= i < |rules| ==> rules[i] == rules[1..][i - 1]
    ensures !Breaks(base, anchors, join)(rules[0]) ==> forall i ::
      FirstMatchAt(rules, Breaks(base, anchors, join), i) <==> i > 0 && FirstMatchAt(rules[1..], Breaks(base, anchors, join), i - 1)
  {
  }

  // ---------------------------------------------------------- social handles

  /** Platform name to the domain its pattern searches for, in the source's
      dictionary order. */
  const SocialRules: seq<Rule> := [
    Rule("instagram", HrefPattern("instagram.com")),
    Rule("facebook", HrefPattern("facebook.com")),
    Rule("twitter", HrefPattern("twitter.com")),
    Rule("youtube", HrefPattern("youtube.com")),
    Rule("tiktok", HrefPattern("tiktok.com"))]

  /** `_extract_social_handles`: a platform is present when the first anchor
      whose href mentions its domain has an href; a join that raises escapes. */
  function SocialHandles(base: string, anchors: seq<Anchor>, join: Joiner): (r: Result<map<string, string>, string>)
    ensures r.Success? ==> r.value.Keys <= {"instagram", "facebook", "twitter", "youtube", "tiktok"}
    ensures r.Success? ==> forall i :: 0 <= i < |SocialRules| ==>
      (SocialRules[i].key in r.value <==> FirstHref(anchors, SocialRules[i].test).Some?)
    ensures r.Success? ==> forall i :: 0 <= i < |SocialRules| && FirstHref(anchors, SocialRules[i].test).Some? ==>
      join(base, FirstHref(anchors, SocialRules[i].test).value) == Success(r.value[SocialRules[i].key])
    ensures r.Failure? <==> exists i :: 0 <= i < |SocialRules| && Breaks(base, anchors, join)(SocialRules[i])
    ensures forall i :: FirstMatchAt(SocialRules, Breaks(base, anchors, join), i) ==>
      r == Failure(LinkOf(base, anchors, SocialRules[i], join).value.error)
  {
    assert DistinctKeys(SocialRules);
    assert KeysOf(SocialRules) <= {"instagram", "facebook", "twitter", "youtube", "tiktok"} by {
      forall k | k in KeysOf(SocialRules) ensures k in {"instagram", "facebook", "twitter", "youtube", "tiktok"} {
        var i :| 0 <= i < |SocialRules| && SocialRules[i].key == k;
      }
    }
    CollectLinks(base, anchors, SocialRules, join)
  }

  /** The rules' keys are pairwise distinct, so no lookup overwrites another. */
  predicate DistinctKeys(rules: seq<Rule>)
  {
    forall i, j :: 0 <= i < j < |rules| ==> rules[i].key != rules[j].key
  }

  /** A social pattern only matches a non-empty href, so the truthiness test
      on line 70 never drops a platform. */
  lemma SocialMatchHasHref(pattern: string, a: Anchor)
    requires pattern != "" && HrefPattern(pattern)(a)
    ensures HasHref(a)
  {
  }

  // --------------------------------------------------------- important links

  /** The labels of `link_keywords`, in the source's order. */
  const LinkRules: seq<Rule> := [
    Rule("Contact", StringPattern("Contact")),
    Rule("Track Order", StringPattern("Track Order")),
    Rule("Blog", StringPattern("Blog"))]

  /** `_extract_important_links`: a label is present when the first anchor
      whose text mentions it has an href; a join that raises escapes. */
  function ImportantLinks(base: string, anchors: seq<Anchor>, join: Joiner): (r: Result<map<string, string>, string>)
    ensures r.Success? ==> r.value.Keys <= {"Contact", "Track Order", "Blog"}
    ensures r.Success? ==> forall i :: 0 <= i < |LinkRules| ==>
      (LinkRules[i].key in r.value <==> FirstHref(anchors, LinkRules[i].test).Some?)
    ensures r.Success? ==> forall i :: 0 <= i < |LinkRules| && FirstHref(anchors, LinkRules[i].test).Some? ==>
      join(base, FirstHref(anchors, LinkRules[i].test).value) == Success(r.value[LinkRules[i].key])
    ensures r.Failure? <==> exists i :: 0 <= i < |LinkRules| && Breaks(base, anchors, join)(LinkRules[i])
    ensures forall i :: FirstMatchAt(LinkRules, Breaks(base, anchors, join), i) ==>
      r == Failure(LinkOf(base, anchors, LinkRules[i], join).value.error)
  {
    assert DistinctKeys(LinkRules);
    assert KeysOf(LinkRules) <= {"Contact", "Track Order", "Blog"} by {
      forall k | k in KeysOf(LinkRules) ensures k in {"Contact", "Track Order", "Blog"} {
        var i :| 0 <= i < |LinkRules| && LinkRules[i].key == k;
      }
    }
    CollectLinks(base, anchors, LinkRules, join)
  }

  /** Only the first anchor whose text matches decides: when it has no href,
      the label is absent even if a later matching anchor has one. */
  lemma FirstMatchingAnchorDecides(base: string, anchors: seq<Anchor>, join: Joiner, k: nat, i: nat)
    requires k < |LinkRules| && FirstMatchAt(anchors, LinkRules[k].test, i) && !HasHref(anchors[i])
    requires ImportantLinks(base, anchors, join).Success?
    ensures LinkRules[k].key !in ImportantLinks(base, anchors, join).value
  {
  }

  // --------------------------------------------------------- contact details

  /** The prefix group `(\+91[\-\s]?)` of a phone match, with the separator
      that followed `+91`, if any. */
  datatype CountryCode = CountryCode(separator: Option<char>)

  /** One match of the phone pattern: the captured prefix group (absent when
      it did not take part) and the ten-digit number, which is not captured. */
  datatype PhoneMatch = PhoneMatch(prefix: Option<CountryCode>, number: string)

  /** What `re.findall` yields for one phone match: the pattern has one
      group, so the group's text, or "" when the group did not match. */
  function CapturedGroup(m: PhoneMatch): (g: string)
    ensures g == "" || (|g| <= 4 && IsPrefix("+91", g))
  {
    match m.prefix
    case None => ""
    case Some(CountryCode(None)) => "+91"
    case Some(CountryCode(Some(c))) => "+91" + [c]
  }

  /** `_extract_contact_details`, given the matches of the email pattern
      and of the phone pattern over the homepage's spaced text. */
  function ContactDetails(text: string, findEmails: string -> seq<string>, findPhones: string -> seq<PhoneMatch>)
    : (r: map<string, seq<string>>)
    ensures r.Keys == {"emails", "phones"}
    ensures NoDup(r["emails"]) && NoDup(r["phones"])
    ensures forall e :: e in r["emails"] <==> e in findEmails(text)
    ensures forall g :: g in r["phones"] <==> exists m :: m in findPhones(text) && g == CapturedGroup(m)
    ensures forall g :: g in r["phones"] ==> g == "" || IsPrefix("+91", g)
  {
    var matches := findPhones(text);
    var phones := seq(|matches|, i requires 0 <= i < |matches| => CapturedGroup(matches[i]));
    assert forall g :: g in phones <==> exists m :: m in matches && g == CapturedGroup(m) by {
      forall g | g in phones ensures exists m :: m in matches && g == CapturedGroup(m) {
        var i :| 0 <= i < |phones| && phones[i] == g;
        assert matches[i] in matches;
      }
      forall m | m in matches ensures CapturedGroup(m) in phones {
        var i :| 0 <= i < |matches| && matches[i] == m;
        assert phones[i] == CapturedGroup(m);
      }
    }
    DedupMembers(phones);
    DedupMembers(findEmails(text));
    map["emails" := Dedup(findEmails(text)), "phones" := Dedup(phones)]
  }

  /** The phone list holds captured prefix groups, never the numbers: with
      no `+91` in any match its only possible entry is "". */
  lemma PhonesAreCapturedGroups(text: string, findEmails: string -> seq<string>, findPhones: string -> seq<PhoneMatch>)
    requires forall m :: m in findPhones(text) ==> m.prefix.None?
    ensures forall g :: g in ContactDetails(text, findEmails, findPhones)["phones"] <==> g == "" && findPhones(text) != []
  {
  }

  // --------------------------------------------------------- linked pages

  /** `main_content = page.find("main") or page.find("body")`, then its text. */
  function MainOrBody(d: Doc): Option<string>
  {
    if d.main.Some? then d.main else d.body
  }

  /** What happens to one keyword of `_find_and_scrape_text_from_link`:
      no link, an exception inside the `try` (the join or the fetch raised),
      or the fetched page. */
  datatype Attempt = NoLink | Raised | Fetched(page: Doc)

  function TryKeyword(base: string, anchors: seq<Anchor>, keyword: string,
                      join: Joiner, fetch: string -> Fetched): Attempt
  {
    match FirstHref(anchors, StringPattern(keyword))
    case None => NoLink
    case Some(href) =>
      match join(base, href)
      case Failure(_) => Raised
      case Success(url) =>
        match fetch(url)
        case Err(_) => Raised
        case Ok(page) => Fetched(page)
  }

  function Reaches(base: string, anchors: seq<Anchor>, join: Joiner,
                   fetch: string -> Fetched): string -> bool
  {
    (keyword: string) => TryKeyword(base, anchors, keyword, join, fetch).Fetched?
  }

  /** `_find_and_scrape_text_from_link`: keywords are tried in order; a
      missing link, a join that raises or a failed fetch moves on to the next keyword; the first
      page fetched decides the result, even when it has neither `<main>`
      nor `<body>`. */
  function LinkedPageText(base: string, anchors: seq<Anchor>, keywords: seq<string>,
                          join: Joiner, fetch: string -> Fetched): (r: Option<string>)
    ensures forall i :: FirstMatchAt(keywords, Reaches(base, anchors, join, fetch), i) ==>
      r == MainOrBody(TryKeyword(base, anchors, keywords[i], join, fetch).page)
    ensures (forall i :: 0 <= i < |keywords| ==> !Reaches(base, anchors, join, fetch)(keywords[i])) ==> r.None?
  {
    if |keywords| == 0 then None
    else match TryKeyword(base, anchors, keywords[0], join, fetch)
      case Fetched(page) => MainOrBody(page)
      case _ =>
        var rest := LinkedPageText(base, anchors, keywords[1..], join, fetch);
        assert forall i :: FirstMatchAt(keywords, Reaches(base, anchors, join, fetch), i) ==>
          i > 0 && FirstMatchAt(keywords[1..], Reaches(base, anchors, join, fetch), i - 1);
        rest
  }

  /** A fetched page without `<main>` or `<body>` ends the search with no
      text; later keywords are not tried. */
  lemma FirstFetchedPageDecides(base: string, anchors: seq<Anchor>, keywords: seq<string>,
                                join: Joiner, fetch: string -> Fetched, i: nat)
    requires FirstMatchAt(keywords, Reaches(base, anchors, join, fetch), i)
    requires TryKeyword(base, anchors, keywords[i], join, fetch).page.main.None?
    requires TryKeyword(base, anchors, keywords[i], join, fetch).page.body.None?
    ensures LinkedPageText(base, anchors, keywords, join, fetch).None?
  {
  }

  // --------------------------------------------------------- FAQs

  predicate IsParagraph(e: Element)
  {
    e.tag == "p"
  }

  /** `q_tag.find_next_sibling("p")` for the element at `i`: the first later
      sibling that is a `p`, not necessarily the adjacent one. */
  function NextParagraph(elems: seq<Element>, i: nat): (r: Option<nat>)
    requires i < |elems|
    ensures r.Some? ==> i < r.value < |elems| && IsParagraph(elems[r.value])
    ensures r.Some? ==> forall m :: i < m < r.value ==> !IsParagraph(elems[m])
    ensures r.None? ==> forall m :: i < m < |elems| ==> !IsParagraph(elems[m])
  {
    match FindFirst(elems[i + 1..], IsParagraph)
    case None =>
      assert forall m :: i < m < |elems| ==> elems[m] == elems[i + 1..][m - i - 1];
      None
    case Some(j) =>
      assert forall m :: i < m < i + 1 + j ==> elems[m] == elems[i + 1..][m - i - 1];
      Some(i + 1 + j)
  }

  /** The element at `i` yields an entry: a `strong`/`b` whose text ends in
      `?` and that has a later `p` sibling. */
  predicate YieldsEntry(elems: seq<Element>, i: nat)
    requires i < |elems|
  {
    (elems[i].tag == "strong" || elems[i].tag == "b") && EndsWith(elems[i].text, '?')
    && NextParagraph(elems, i).Some?
  }

  function EntryAt(elems: seq<Element>, i: nat): FaqItem
    requires i < |elems| && YieldsEntry(elems, i)
  {
    FaqItem(elems[i].text, elems[NextParagraph(elems, i).value].text)
  }

  /** The loop of lines 105-109 over the elements from position `i` on. */
  function FaqFrom(elems: seq<Element>, i: nat): (r: seq<FaqItem>)
    requires i <= |elems|
    ensures |r| <= |elems| - i
    ensures forall k :: 0 <= k < |r| ==> EndsWith(r[k].question, '?')
    decreases |elems| - i
  {
    if i == |elems| then []
    else if YieldsEntry(elems, i) then [EntryAt(elems, i)] + FaqFrom(elems, i + 1)
    else FaqFrom(elems, i + 1)
  }

  /** The positions, from `i` on, of the elements that yield an entry. */
  function EntryPositions(elems: seq<Element>, i: nat): (pos: seq<nat>)
    requires i <= |elems|
    ensures forall k :: 0 <= k < |pos| ==> i <= pos[k] < |elems| && YieldsEntry(elems, pos[k])
    ensures forall k, l :: 0 <= k < l < |pos| ==> pos[k] < pos[l]
    ensures forall j :: i <= j < |elems| && YieldsEntry(elems, j) ==> j in pos
    decreases |elems| - i
  {
    if i == |elems| then []
    else
      var rest := EntryPositions(elems, i + 1);
      if YieldsEntry(elems, i) then
        assert forall k :: 0 < k <= |rest| ==> ([i] + rest)[k] == rest[k - 1];
        [i] + rest
      else rest
  }

  /** The entries are exactly those of the qualifying elements, in document
      order: the k-th entry comes from the k-th qualifying position. */
  lemma {:induction false} FaqOrder(elems: seq<Element>, i: nat)
    requires i <= |elems|
    ensures |FaqFrom(elems, i)| == |EntryPositions(elems, i)|
    ensures forall k :: 0 <= k < |FaqFrom(elems, i)| ==>
      FaqFrom(elems, i)[k] == EntryAt(elems, EntryPositions(elems, i)[k])
    decreases |elems| - i
  {
    if i < |elems| {
      FaqOrder(elems, i + 1);
    }
  }

  /** The FAQ page: the href of the first anchor whose text mentions "faq",
      joined and fetched; `None` when there is no such href or the join or
      the fetch raises. */
  function FaqPage(base: string, anchors: seq<Anchor>, join: Joiner, fetch: string -> Fetched): Option<Doc>
  {
    match FirstHref(anchors, StringPattern("faq"))
    case None => None
    case Some(href) =>
      match join(base, href)
      case Failure(_) => None
      case Success(url) =>
        match fetch(url)
        case Err(_) => None
        case Ok(page) => Some(page)
  }

  /** `_extract_faqs`: no "faq" anchor with an href, or a join or fetch that
      raises, gives `[]`; otherwise the entries are those of the fetched page. */
  function Faqs(base: string, anchors: seq<Anchor>, join: Joiner,
                fetch: string -> Fetched): (r: seq<FaqItem>)
    ensures FirstHref(anchors, StringPattern("faq")).None? ==> r == []
    ensures forall k :: 0 <= k < |r| ==> EndsWith(r[k].question, '?')
    ensures forall href :: FirstHref(anchors, StringPattern("faq")) == Some(href) ==>
      r == (if join(base, href).Success? && fetch(join(base, href).value).Ok?
            then FaqFrom(fetch(join(base, href).value).doc.siblings, 0)
            else [])
  {
    match FaqPage(base, anchors, join, fetch)
    case None => []
    case Some(page) => FaqFrom(page.siblings, 0)
  }

  /** The answer is the first later `p`, past any other siblings in between;
      two questions before one paragraph share its answer. */
  lemma FaqAnswerNeedNotBeAdjacent()
    ensures FaqFrom([Element("b", "Q1?"), Element("strong", "Q2?"), Element("div", "x"), Element("p", "A")], 0)
      == [FaqItem("Q1?", "A"), FaqItem("Q2?", "A")]
  {
  }

  // --------------------------------------------------------- hero products

  function Titles(catalog: seq<Product>): seq<string>
  {
    seq(|catalog|, i requires 0 <= i < |catalog| => catalog[i].title)
  }

  /** Line 129: the lower-cased homepage text contains the lower-cased title. */
  predicate Mentions(text: string, p: Product)
  {
    ContainsIgnoringCase(text, p.title)
  }

  /** The loop of lines 128-130 over the catalog from position `i` on. */
  function MatchingFrom(catalog: seq<Product>, text: string, i: nat): (r: seq<string>)
    requires i <= |catalog|
    ensures IsSubsequence(r, Titles(catalog)[i..])
    ensures forall k :: 0 <= k < |r| ==> ContainsIgnoringCase(text, r[k])
    ensures forall j :: i <= j < |catalog| && Mentions(text, catalog[j]) ==> catalog[j].title in r
    decreases |catalog| - i
  {
    if i == |catalog| then []
    else
      var rest := MatchingFrom(catalog, text, i + 1);
      assert Titles(catalog)[i..][0] == catalog[i].title;
      assert Titles(catalog)[i..][1..] == Titles(catalog)[i + 1..];
      if Mentions(text, catalog[i]) then [catalog[i].title] + rest else rest
  }

  /** The positions, from `i` on, of the products whose title the homepage
      text mentions. */
  function MentionPositions(catalog: seq<Product>, text: string, i: nat): (pos: seq<nat>)
    requires i <= |catalog|
    ensures forall k :: 0 <= k < |pos| ==> i <= pos[k] < |catalog| && Mentions(text, catalog[pos[k]])
    ensures forall k, l :: 0 <= k < l < |pos| ==> pos[k] < pos[l]
    ensures forall j :: i <= j < |catalog| && Mentions(text, catalog[j]) ==> j in pos
    decreases |catalog| - i
  {
    if i == |catalog| then []
    else if Mentions(text, catalog[i]) then [i] + MentionPositions(catalog, text, i + 1)
    else MentionPositions(catalog, text, i + 1)
  }

  /** The k-th matching title is the title of the k-th mentioned product:
      repeated titles are kept, once per product, in catalog order. */
  lemma {:induction false} MatchingOrder(catalog: seq<Product>, text: string, i: nat)
    requires i <= |catalog|
    ensures |MatchingFrom(catalog, text, i)| == |MentionPositions(catalog, text, i)|
    ensures forall k :: 0 <= k < |MatchingFrom(catalog, text, i)| ==>
      MatchingFrom(catalog, text, i)[k] == catalog[MentionPositions(catalog, text, i)[k]].title
    decreases |catalog| - i
  {
    if i < |catalog| {
      MatchingOrder(catalog, text, i + 1);
    }
  }

  /** The whole loop of lines 128-130: one title per mentioned product, in
      catalog order. */
  function MatchingTitles(catalog: seq<Product>, text: string): (r: seq<string>)
    ensures IsSubsequence(r, Titles(catalog))
    ensures forall k :: 0 <= k < |r| ==> ContainsIgnoringCase(text, r[k])
    ensures forall i :: 0 <= i < |catalog| && ContainsIgnoringCase(text, catalog[i].title) ==> catalog[i].title in r
    ensures |r| == |MentionPositions(catalog, text, 0)|
    ensures forall k :: 0 <= k < |r| ==> r[k] == catalog[MentionPositions(catalog, text, 0)[k]].title
  {
    MatchingOrder(catalog, text, 0);
    assert Titles(catalog)[0..] == Titles(catalog);
    MatchingFrom(catalog, text, 0)
  }

  /** `_extract_hero_products`: the first five matching titles. */
  function HeroProducts(catalog: seq<Product>, text: string): (r: seq<string>)
    ensures r <= MatchingTitles(catalog, text)
    ensures |r| == if |MatchingTitles(catalog, text)| < 5 then |MatchingTitles(catalog, text)| else 5
  {
    Take(MatchingTitles(catalog, text), 5)
  }

  /** The hero list holds the titles of the first min(5, n) products whose
      title the homepage text mentions, in catalog order. */
  lemma HeroProductsFirstMentioned(catalog: seq<Product>, text: string)
    ensures var r := HeroProducts(catalog, text);
      var pos := MentionPositions(catalog, text, 0);
      && |r| == (if |pos| < 5 then |pos| else 5)
      && (forall k :: 0 <= k < |r| ==> r[k] == catalog[pos[k]].title)
  {
    var m := MatchingTitles(catalog, text);
    var r := HeroProducts(catalog, text);
    assert forall k :: 0 <= k < |r| ==> r[k] == m[k];
  }

  /** Every hero product is a catalog title found in the homepage text, the
      list keeps catalog order, and it only falls short of a matching title
      once it holds five. */
  lemma HeroProductsSound(catalog: seq<Product>, text: string)
    ensures var r := HeroProducts(catalog, text);
      && IsSubsequence(r, Titles(catalog))
      && (forall k :: 0 <= k < |r| ==> ContainsIgnoringCase(text, r[k]))
      && (forall i :: 0 <= i < |catalog| && ContainsIgnoringCase(text, catalog[i].title) && catalog[i].title !in r ==> |r| == 5)
  {
    var m := MatchingTitles(catalog, text);
    var r := HeroProducts(catalog, text);
    PrefixOfSubsequence(m, Titles(catalog), |r|);
    assert m[..|r|] == r;
  }
}
