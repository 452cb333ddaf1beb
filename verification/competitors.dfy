/** `find_competitors_for` (app/services/competitor_service.py): a fixed
    lookup keyed by a substring of the brand URL. */
module Competitors {
  import opened Text
  import opened Seqs

  const MemyKey := "memy.co.in"

  const MemyCompetitors: seq<string> := [
    "https://www.nykaafashion.com/",
    "https://www.ajio.com/",
    "https://www.biba.in/",
    "https://www.andindia.com/"]

  /** Total: four fixed URLs when the key occurs in `brandUrl`, else none. */
  function FindCompetitors(brandUrl: string): (r: seq<string>)
    ensures |r| == 0 || |r| == 4
    ensures r != [] <==> Contains(brandUrl, "memy.co.in")
    ensures r != [] ==> r == ["https://www.nykaafashion.com/", "https://www.ajio.com/",
                              "https://www.biba.in/", "https://www.andindia.com/"]
  {
    if Contains(brandUrl, MemyKey) then MemyCompetitors else []
  }

  /** The returned URLs are pairwise distinct. */
  lemma CompetitorsDistinct(brandUrl: string)
    ensures NoDup(FindCompetitors(brandUrl))
  {
  }

  /** No competitor URL carries the key, so a competitor has no competitors
      of its own: the lookup never chains. */
  lemma CompetitorsHaveNoCompetitors(brandUrl: string)
    ensures forall c :: c in FindCompetitors(brandUrl) ==> FindCompetitors(c) == []
  {
    forall c | c in FindCompetitors(brandUrl)
      ensures !Contains(c, MemyKey)
    {
      assert 'e' in MemyKey;
      assert 'e' !in c;
      if Contains(c, MemyKey) {
        ContainsKeepsChars(c, MemyKey, 'e');
      }
    }
  }
}
