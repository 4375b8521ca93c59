/** The decisions of components/game-card.tsx: the colour of the source badge, what a
    click on the card does, which details the card shows, and its magnet-link list. */
module GameCard {
  import opened JsText
  import opened Api

  /** The three badge styles `getSourceColor` chooses between. */
  datatype BadgeColor = Pink | Blue | Primary

  /** The class list each badge style stands for. */
  function ClassName(c: BadgeColor): string {
    match c
    case Pink => "bg-pink-500/20 text-pink-400 border-pink-500/30"
    case Blue => "bg-blue-500/20 text-blue-400 border-blue-500/30"
    case Primary => "bg-primary/20 text-primary border-primary/30"
  }

  /** `getSourceColor`, which returns `ClassName(SourceColor(source))`: "fitgirl" is
      looked for first, then "dodi", both in the lower-cased source; otherwise the
      primary style. */
  function SourceColor(source: string): BadgeColor {
    var lower := ToLower(source);
    if Includes(lower, "fitgirl") then Pink
    else if Includes(lower, "dodi") then Blue
    else Primary
  }

  /** A source that contains "fitgirl" in any mix of upper and lower case is pink, whatever
      else it contains ("dodi" included). */
  lemma FitgirlIsPink(source: string, w: string)
    requires Includes(source, w) && ToLower(w) == "fitgirl"
    ensures SourceColor(source) == Pink
  {
    IncludesToLower(source, w);
  }

  /** A source that contains "dodi" in any case, and no "fitgirl" in any case, is blue. */
  lemma DodiIsBlue(source: string, w: string)
    requires Includes(source, w) && ToLower(w) == "dodi"
    requires !Includes(ToLower(source), "fitgirl")
    ensures SourceColor(source) == Blue
  {
    IncludesToLower(source, w);
  }

  /** A source with neither word, in any case, gets the primary style. */
  lemma NeitherIsPrimary(source: string)
    requires !Includes(ToLower(source), "fitgirl") && !Includes(ToLower(source), "dodi")
    ensures SourceColor(source) == Primary
  {
  }

  /** The badge does not depend on letter case. */
  lemma SourceColorIgnoresCase(source: string)
    ensures SourceColor(ToLower(source)) == SourceColor(source)
  {
    ToLowerIdempotent(source);
  }

  /** The two effects a click on the card can have. */
  datatype ClickEffect = OpenTab(url: string) | ErrorToast(text: string)

  /** `handleGameClick`: a web page URL that is present and not empty is opened in a
      new tab; anything else raises "Invalid source URL". */
  function ClickEffectOf(g: Game): (e: ClickEffect)
    ensures e.OpenTab? <==> WebpageUrl in g.present && g.webpageUrl != ""
    ensures e.OpenTab? ==> e.url == g.webpageUrl && e.url != ""
    ensures e.ErrorToast? ==> e.text == "Invalid source URL"
  {
    if WebpageUrl in g.present && g.webpageUrl != "" then OpenTab(g.webpageUrl)
    else ErrorToast("Invalid source URL")
  }

  /** The details line of a card: size and upload date, or the snippet. */
  datatype Details = SizeAndDate(size: string, uploadDate: string) | SnippetText(text: string)

  /** A traditional game shows its size and upload date; any other value shows its
      snippet, which renders as nothing when the property is absent. */
  function DetailsOf(g: Game): (d: Details)
    ensures d.SizeAndDate? <==> IsTraditional(g)
    ensures d.SizeAndDate? ==> d.size == g.size && d.uploadDate == g.uploadDate
    ensures d.SnippetText? && Snippet in g.present ==> d.text == g.snippet
    ensures d.SnippetText? && Snippet !in g.present ==> d.text == ""
  {
    if IsTraditional(g) then SizeAndDate(g.size, g.uploadDate)
    else SnippetText(if Snippet in g.present then g.snippet else "")
  }

  /** One magnet-link button: the URI it opens and its caption. */
  datatype MagnetLinkView = MagnetLinkView(uri: string, caption: string)

  /** The caption as the code writes it: the list passes `index + 1` as the link's
      `index` prop and the caption prints `index + 1` again. */
  function MagnetLabelAsWritten(position: nat): string {
    var indexProp := position + 1;
    "Magnet Link " + Decimal(indexProp + 1)
  }

  /** The first link of a card is captioned "Magnet Link 2". */
  lemma FirstMagnetLabelAsWritten()
    ensures MagnetLabelAsWritten(0) == "Magnet Link 2"
  {
    assert Decimal(2) == "2";
  }

  /** As written, the number in the caption is the 0-based position plus two. */
  lemma MagnetLabelAsWrittenNumber(position: nat)
    ensures var caption := MagnetLabelAsWritten(position);
            |caption| > 12 && AllDigits(caption[12..]) && ParseDecimal(caption[12..]) == position + 2
  {
    var caption := MagnetLabelAsWritten(position);
    assert caption[12..] == Decimal(position + 2);
    DecimalRoundTrip(position + 2);
  }

  /** The caption numbering the links 1, 2, 3, ... in list order. */
  function MagnetLabel(position: nat): string {
    "Magnet Link " + Decimal(position + 1)
  }

  /** With the corrected caption the first link is "Magnet Link 1", the number in the
      caption is the 1-based position, and no two positions share a caption. */
  lemma MagnetLabelsNumberFromOne(p: nat, q: nat)
    ensures MagnetLabel(0) == "Magnet Link 1"
    ensures var caption := MagnetLabel(p);
            |caption| > 12 && AllDigits(caption[12..]) && ParseDecimal(caption[12..]) == p + 1
    ensures p != q ==> MagnetLabel(p) != MagnetLabel(q)
  {
    assert Decimal(1) == "1";
    assert MagnetLabel(p)[12..] == Decimal(p + 1);
    assert MagnetLabel(q)[12..] == Decimal(q + 1);
    DecimalRoundTrip(p + 1);
    DecimalRoundTrip(q + 1);
  }

  /** The magnet section: present only for a traditional game whose `uris` property is
      present and not empty, and then one link per URI, in order. */
  function MagnetLinks(g: Game): (links: seq<MagnetLinkView>)
    ensures links != [] <==> IsTraditional(g) && Uris in g.present && |g.uris| > 0
    ensures links != [] ==> |links| == |g.uris|
    ensures forall i :: 0 <= i < |links| ==> links[i] == MagnetLinkView(g.uris[i], MagnetLabel(i))
  {
    if IsTraditional(g) && Uris in g.present && |g.uris| > 0 then
      seq(|g.uris|, i requires 0 <= i < |g.uris| => MagnetLinkView(g.uris[i], MagnetLabel(i)))
    else
      []
  }

  /** The magnet section as the code renders it: the same links, each captioned with
      the as-written number. */
  function MagnetLinksAsWritten(g: Game): (links: seq<MagnetLinkView>)
    ensures links != [] <==> IsTraditional(g) && Uris in g.present && |g.uris| > 0
    ensures links != [] ==> |links| == |g.uris|
    ensures forall i :: 0 <= i < |links| ==> links[i] == MagnetLinkView(g.uris[i], MagnetLabelAsWritten(i))
  {
    if IsTraditional(g) && Uris in g.present && |g.uris| > 0 then
      seq(|g.uris|, i requires 0 <= i < |g.uris| => MagnetLinkView(g.uris[i], MagnetLabelAsWritten(i)))
    else
      []
  }

  /** The rendered list differs from the corrected one only in its captions, each of
      which carries the number of the next link: the code shows "Magnet Link 2" where
      "Magnet Link 1" is meant, and so on down the list. */
  lemma {:induction false} MagnetLinksShiftedByOne(g: Game)
    ensures |MagnetLinksAsWritten(g)| == |MagnetLinks(g)|
    ensures forall i :: 0 <= i < |MagnetLinks(g)| ==>
              MagnetLinksAsWritten(g)[i].uri == MagnetLinks(g)[i].uri
              && MagnetLinksAsWritten(g)[i].caption == MagnetLabel(i + 1)
              && MagnetLinksAsWritten(g)[i].caption != MagnetLinks(g)[i].caption
  {
    forall i | 0 <= i < |MagnetLinks(g)|
      ensures MagnetLinksAsWritten(g)[i].caption != MagnetLinks(g)[i].caption
    {
      MagnetLabelsNumberFromOne(i + 1, i);
    }
  }

  /** What a card renders, less layout: the title text, the badge and source label, the
      details line and the magnet links. */
  datatype CardView = CardView(
    title: string, badge: BadgeColor, badgeClass: string, source: string, details: Details,
    magnetLinks: seq<MagnetLinkView>)

  /** `GameCard`. The source label is lower-cased for the badge, so a value without a
      `source` property cannot be rendered; a missing title renders as nothing. */
  function Card(g: Game): (c: CardView)
    requires Source in g.present
    ensures c.badge == SourceColor(g.source) && c.source == g.source
    ensures c.badgeClass == "shrink-0 " + ClassName(c.badge)
    ensures c.title == (if Title in g.present then g.title else "")
    ensures c.details == DetailsOf(g) && c.magnetLinks == MagnetLinks(g)
  {
    var badge := SourceColor(g.source);
    CardView(if Title in g.present then g.title else "", badge, "shrink-0 " + ClassName(badge), g.source,
             DetailsOf(g), MagnetLinks(g))
  }
}
