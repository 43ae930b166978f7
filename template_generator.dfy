/** template_generator.py: three themes (gradient purple, dark minimal,
    academic light) that turn the résumé dictionary into one HTML page each,
    and `generate_all_themes`, which renders all three. Item, section and page
    markup are reproduced character for character, including the whitespace of
    the triple-quoted f-strings; the `<style>` blocks are stood in for by one
    constant per theme. Text from the dictionary is spliced in as it is. */
module TemplateGenerator {
  import opened Base
  import opened ResumeData
  const PurpleItemOpen: string := "\n" + "                <div class=\"timeline-item\">\n" + "                    <div class=\"timeline-marker\"></div>\n" + "                    <div class=\"timeline-content\">\n" + "                        "
  const PurpleSubtitleOpen: string := "\n" + "                        <p class=\"subtitle\">"
  const PurpleDateOpen: string := "</p>\n" + "                        <p class=\"date\">"
  const PurpleDateClose: string := "</p>\n" + "                        "
  const PurpleItemClose: string := "\n" + "                    </div>\n" + "                </div>\n" + "                "
  const PurpleCardOpen: string := "\n" + "                <div class=\"grid-card\">\n" + "                    "
  const CardClose: string := "\n" + "                </div>\n" + "                "
  const PurpleSectionOpen: string := "<section><h2 class=\"section-title\">"
  const PurpleTimelineOpen: string := "</h2><div class=\"timeline\">"
  const PurpleTextOpen: string := "</h2><div class=\"text-content\"><p>"
  const HtmlHead: string := "<!DOCTYPE html>\n" + "<html lang=\"en\">\n" + "<head>\n" + "    <meta charset=\"UTF-8\">\n" + "    <meta name=\"viewport\" content=\"width=device-width, initial-scale=1.0\">\n" + "    "
  const PurpleHeroOpen: string := "\n" + "</head>\n" + "<body>\n" + "    <div class=\"container\">\n" + "        <div class=\"hero\">\n" + "            "
  const PurpleContactOpen: string := "\n" + "            <div class=\"contact\">\n" + "                "
  const PurpleWebsiteTail: string := "\" target=\"_blank\">🌐 Website</a>"
  const PurpleHeroClose: string := "\n" + "            </div>\n" + "        </div>\n" + "        "
  const HtmlFoot: string := "\n" + "    </div>\n" + "</body>\n" + "</html>"
  const DarkItemOpen: string := "\n" + "                <div class=\"item\">\n" + "                    "
  const DarkCardOpen: string := "\n" + "                <div class=\"card\">\n" + "                    "
  const PlainBodyOpen: string := "\n" + "</head>\n" + "<body>\n" + "    <div class=\"container\">\n" + "        "
  const DarkContactOpen: string := "\n" + "        <div class=\"contact\">\n" + "            "
  const DarkWebsiteTail: string := "\" target=\"_blank\">WEBSITE</a>"
  const LightEntryOpen: string := "\n" + "            <div class=\"entry\">\n" + "                "
  const LightEntryClose: string := "\n" + "            </div>\n" + "            "

  const PurpleStyle: string := "<style>/* gradient purple: glass card, fade-in and slide-down animations */</style>"
  const DarkStyle: string := "<style>/* dark minimal: black background, neon green accents */</style>"
  const LightStyle: string := "<style>/* academic light: serif type on white paper */</style>"

  // ---------------------------------------------------------------- gradient purple

  function PurpleTimelineItem(it: Item): string {
    Join([
      PurpleItemOpen,
      "<h3>" + Get(it.title, "") + "</h3>",
      PurpleSubtitleOpen,
      Get(it.subtitle, ""),
      PurpleDateOpen,
      Get(it.date, ""),
      PurpleDateClose,
      (if Truthy(it.description) then "<p class=\"description\">" + it.description.value + "</p>" else ""),
      PurpleItemClose
    ])
  }

  function PurpleTag(tag: string): string {
    "<span class=\"tag\">" + tag + "</span>"
  }

  /** `"".join(...)` over the item's tags. */
  function PurpleChips(it: Item): string {
    ConcatMap(PurpleTag, Tags(it))
  }

  function PurpleGridCard(it: Item): string {
    var chips := PurpleChips(it);
    Join([
      PurpleCardOpen,
      "<h3>" + Get(it.title, "") + "</h3>",
      "\n                    ",
      (if Truthy(it.subtitle) then "<p class=\"subtitle\">" + it.subtitle.value + "</p>" else ""),
      "\n                    ",
      (if Truthy(it.date) then "<p class=\"date\">" + it.date.value + "</p>" else ""),
      "\n                    ",
      (if Truthy(it.description) then "<p>" + it.description.value + "</p>" else ""),
      "\n                    ",
      (if chips != "" then "<div class=\"tags\">" + chips + "</div>" else ""),
      CardClose
    ])
  }

  function PurpleTimelineWrap(title: string, itemsHtml: string): string {
    PurpleSectionOpen + title + PurpleTimelineOpen + itemsHtml + "</div></section>"
  }

  function PurpleGridWrap(title: string, itemsHtml: string): string {
    PurpleSectionOpen + title + "</h2><div class=\"grid\">" + itemsHtml + "</div></section>"
  }

  /** The section a text-content item with a description gets of its own. */
  function PurpleTextBlock(title: string, description: string): string {
    PurpleSectionOpen + title + PurpleTextOpen + description + "</p></div></section>"
  }

  function PurpleTextEntry(title: string): Item -> string {
    (it: Item) => if Truthy(it.description) then PurpleTextBlock(title, it.description.value) else ""
  }

  /** One section: a timeline, a grid, or, for any other or a missing type, text content. */
  function PurpleSection(s: Section): string {
    if Kind(s) == "timeline" then PurpleTimelineWrap(Heading(s), ConcatMap(PurpleTimelineItem, Items(s)))
    else if Kind(s) == "grid-list" then PurpleGridWrap(Heading(s), ConcatMap(PurpleGridCard, Items(s)))
    else ConcatMap(PurpleTextEntry(Heading(s)), Items(s))
  }

  /** The returned page, around the accumulated sections. */
  function PurpleParts(d: Resume, sectionsHtml: string): seq<string> {
    [
      HtmlHead,
      "<title>" + Get(d.name, "Academic Homepage") + "</title>",
      "\n    ",
      PurpleStyle,
      PurpleHeroOpen,
      "<h1>" + Get(d.name, "") + "</h1>",
      "\n            ",
      (if Truthy(d.title) then "<p class=\"title\">" + d.title.value + "</p>" else ""),
      "\n            ",
      (if Truthy(d.bio) then "<p class=\"bio\">" + d.bio.value + "</p>" else ""),
      PurpleContactOpen,
      (if Truthy(d.email) then "<a href=\"mailto:" + d.email.value + "\">📧 Email</a>" else ""),
      "\n                ",
      (if Truthy(d.website) then "<a href=\"https://" + d.website.value + PurpleWebsiteTail else ""),
      PurpleHeroClose,
      sectionsHtml,
      HtmlFoot
    ]
  }

  /** `template_gradient_purple(data)` */
  function PurplePage(d: Resume): string {
    Join(PurpleParts(d, ConcatMap(PurpleSection, Sections(d))))
  }

  /** One pass of the outer loop of `template_gradient_purple`: what one section adds to the
      page. A text-content section adds one block per described item. */
  method RenderPurpleSection(section: Section) returns (out: string)
    ensures out == PurpleSection(section)
  {
    var kind := Kind(section);
    var title := Heading(section);
    var items := Items(section);
    out := "";
    if kind == "timeline" {
      var itemsHtml := "";
      var j := 0;
      while j < |items|
        invariant 0 <= j <= |items|
        invariant itemsHtml == ConcatMap(PurpleTimelineItem, items[..j])
      {
        ConcatMapSnoc(PurpleTimelineItem, items, j);
        itemsHtml := itemsHtml + PurpleTimelineItem(items[j]);
        j := j + 1;
      }
      assert items[..j] == items;
      out := PurpleTimelineWrap(title, itemsHtml);
    } else if kind == "grid-list" {
      var itemsHtml := "";
      var j := 0;
      while j < |items|
        invariant 0 <= j <= |items|
        invariant itemsHtml == ConcatMap(PurpleGridCard, items[..j])
      {
        ConcatMapSnoc(PurpleGridCard, items, j);
        itemsHtml := itemsHtml + PurpleGridCard(items[j]);
        j := j + 1;
      }
      assert items[..j] == items;
      out := PurpleGridWrap(title, itemsHtml);
    } else {
      var j := 0;
      while j < |items|
        invariant 0 <= j <= |items|
        invariant out == ConcatMap(PurpleTextEntry(title), items[..j])
      {
        ConcatMapSnoc(PurpleTextEntry(title), items, j);
        var item := items[j];
        if Truthy(item.description) {
          out := out + PurpleTextBlock(title, item.description.value);
        }
        j := j + 1;
      }
      assert items[..j] == items;
    }
  }

  /** The loops of `template_gradient_purple`, building the page piece by piece. */
  method RenderPurple(d: Resume) returns (html: string)
    ensures html == PurplePage(d)
  {
    var sections := Sections(d);
    var sectionsHtml := "";
    var i := 0;
    while i < |sections|
      invariant 0 <= i <= |sections|
      invariant sectionsHtml == ConcatMap(PurpleSection, sections[..i])
    {
      ConcatMapSnoc(PurpleSection, sections, i);
      var sectionHtml := RenderPurpleSection(sections[i]);
      sectionsHtml := sectionsHtml + sectionHtml;
      i := i + 1;
    }
    assert sections[..i] == sections;
    html := Join(PurpleParts(d, sectionsHtml));
  }

  /** The name fills both the `<title>` and the heading; only the `<title>` has
      a fallback, "Academic Homepage", and only when the key is absent. */
  lemma PurpleNameShown(d: Resume)
    ensures d.name.Some? ==> Contains(PurplePage(d), "<title>" + d.name.value + "</title>")
    ensures d.name.None? ==> Contains(PurplePage(d), "<title>" + "Academic Homepage" + "</title>")
    ensures Contains(PurplePage(d), "<h1>" + Get(d.name, "") + "</h1>")
  {
    var parts := PurpleParts(d, ConcatMap(PurpleSection, Sections(d)));
    JoinContains(parts, 1);
    JoinContains(parts, 5);
  }

  /** With a truthy email the page links to it. */
  lemma PurpleEmailLink(d: Resume)
    requires Truthy(d.email)
    ensures Contains(PurplePage(d), "<a href=\"mailto:" + d.email.value + "\">📧 Email</a>")
  {
    JoinContains(PurpleParts(d, ConcatMap(PurpleSection, Sections(d))), 11);
  }

  /** With a truthy website the page links to it, always over https. */
  lemma PurpleWebsiteLink(d: Resume)
    requires Truthy(d.website)
    ensures Contains(PurplePage(d), "<a href=\"https://" + d.website.value + PurpleWebsiteTail)
  {
    JoinContains(PurpleParts(d, ConcatMap(PurpleSection, Sections(d))), 13);
  }

  /** The optional header lines test truthiness: "" renders like an absent key. */
  lemma PurpleEmptyAsAbsent(d: Resume)
    ensures PurplePage(d.(title := Some(""), bio := Some(""), email := Some(""), website := Some("")))
         == PurplePage(d.(title := None, bio := None, email := None, website := None))
  {
    var body := ConcatMap(PurpleSection, Sections(d));
    assert PurpleParts(d.(title := Some(""), bio := Some(""), email := Some(""), website := Some("")), body)
        == PurpleParts(d.(title := None, bio := None, email := None, website := None), body);
  }

  /** Sections are rendered in the order of the input. */
  lemma PurpleSectionsInOrder(d: Resume, i: nat, j: nat)
    requires i < j < |Sections(d)|
    ensures Precedes(PurplePage(d), PurpleSection(Sections(d)[i]), PurpleSection(Sections(d)[j]))
  {
    var body := ConcatMap(PurpleSection, Sections(d));
    ConcatMapPrecedes(PurpleSection, Sections(d), i, j);
    JoinContains(PurpleParts(d, body), 15);
    PrecedesInside(PurplePage(d), body, PurpleSection(Sections(d)[i]), PurpleSection(Sections(d)[j]));
  }

  /** A "timeline" section holds each item's timeline entry, a "grid-list"
      section each item's card, and any other type, or none, takes the
      text-content branch, where each item with a description gets a section
      of its own under the section's title. */
  lemma PurpleDispatch(s: Section, i: nat)
    requires i < |Items(s)|
    ensures Kind(s) == "timeline" ==> Contains(PurpleSection(s), PurpleTimelineItem(Items(s)[i]))
    ensures Kind(s) == "grid-list" ==> Contains(PurpleSection(s), PurpleGridCard(Items(s)[i]))
    ensures Kind(s) != "timeline" && Kind(s) != "grid-list" && Truthy(Items(s)[i].description) ==>
      Contains(PurpleSection(s), PurpleTextBlock(Heading(s), Items(s)[i].description.value))
    ensures s.kind.None? ==> PurpleSection(s) == PurpleSection(s.(kind := Some("text-content")))
  {
    if Kind(s) == "timeline" {
      ConcatMapContains(PurpleTimelineItem, Items(s), i);
      ContainsInPart(PurpleSectionOpen + Heading(s) + PurpleTimelineOpen, ConcatMap(PurpleTimelineItem, Items(s)), "</div></section>", PurpleTimelineItem(Items(s)[i]));
    } else if Kind(s) == "grid-list" {
      ConcatMapContains(PurpleGridCard, Items(s), i);
      ContainsInPart(PurpleSectionOpen + Heading(s) + "</h2><div class=\"grid\">", ConcatMap(PurpleGridCard, Items(s)), "</div></section>", PurpleGridCard(Items(s)[i]));
    } else {
      ConcatMapContains(PurpleTextEntry(Heading(s)), Items(s), i);
    }
  }

  /** A section whose type is not "timeline" or "grid-list", or has none,
      renders nothing exactly when none of its items has a description. */
  lemma PurpleTextSectionEmptyIff(s: Section)
    requires Kind(s) != "timeline" && Kind(s) != "grid-list"
    ensures PurpleSection(s) == "" <==> forall k :: 0 <= k < |Items(s)| ==> !Truthy(Items(s)[k].description)
  {
    ConcatMapEmptyIff(PurpleTextEntry(Heading(s)), Items(s));
  }

  /** The tag strip is left out exactly when the item has no tags; every tag,
      even an empty one, gets a chip. */
  lemma PurpleChipsEmptyIff(it: Item)
    ensures PurpleChips(it) == "" <==> Tags(it) == []
  {
    ConcatMapEmptyIff(PurpleTag, Tags(it));
    if Tags(it) != [] {
      assert PurpleTag(Tags(it)[0]) != "";
    }
  }

  /** Tag chips follow the order of the tags. */
  lemma PurpleChipsInOrder(it: Item, i: nat, j: nat)
    requires i < j < |Tags(it)|
    ensures Precedes(PurpleChips(it), PurpleTag(Tags(it)[i]), PurpleTag(Tags(it)[j]))
  {
    ConcatMapPrecedes(PurpleTag, Tags(it), i, j);
  }

  // ---------------------------------------------------------------- dark minimal

  function DarkTimelineItem(it: Item): string {
    Join([
      DarkItemOpen,
      "<h3>" + Get(it.title, "") + "</h3>",
      "\n                    ",
      (if Truthy(it.subtitle) then "<p class=\"sub\">" + it.subtitle.value + "</p>" else ""),
      "\n                    ",
      (if Truthy(it.date) then "<p class=\"date\">" + it.date.value + "</p>" else ""),
      "\n                    ",
      (if Truthy(it.description) then "<p class=\"desc\">" + it.description.value + "</p>" else ""),
      CardClose
    ])
  }

  function DarkGridCard(it: Item): string {
    Join([
      DarkCardOpen,
      "<h3>" + Get(it.title, "") + "</h3>",
      "\n                    ",
      (if Truthy(it.description) then "<p>" + it.description.value + "</p>" else ""),
      CardClose
    ])
  }

  function DarkTimelineWrap(title: string, itemsHtml: string): string {
    "<section><h2>" + title + "</h2>" + itemsHtml + "</section>"
  }

  function DarkGridWrap(title: string, itemsHtml: string): string {
    "<section><h2>" + title + "</h2><div class=\"grid\">" + itemsHtml + "</div></section>"
  }

  function DarkTextBlock(title: string, description: string): string {
    "<section><h2>" + title + "</h2><p class=\"desc\">" + description + "</p></section>"
  }

  function DarkTextEntry(title: string): Item -> string {
    (it: Item) => if Truthy(it.description) then DarkTextBlock(title, it.description.value) else ""
  }

  function DarkSection(s: Section): string {
    if Kind(s) == "timeline" then DarkTimelineWrap(Heading(s), ConcatMap(DarkTimelineItem, Items(s)))
    else if Kind(s) == "grid-list" then DarkGridWrap(Heading(s), ConcatMap(DarkGridCard, Items(s)))
    else ConcatMap(DarkTextEntry(Heading(s)), Items(s))
  }

  function DarkParts(d: Resume, sectionsHtml: string): seq<string> {
    [
      HtmlHead,
      "<title>" + Get(d.name, "") + "</title>",
      "\n    ",
      DarkStyle,
      PlainBodyOpen,
      "<h1>" + Get(d.name, "") + "</h1>",
      "\n        ",
      (if Truthy(d.title) then "<p class=\"title\">" + d.title.value + "</p>" else ""),
      "\n        ",
      (if Truthy(d.bio) then "<p class=\"bio\">" + d.bio.value + "</p>" else ""),
      DarkContactOpen,
      (if Truthy(d.email) then "<a href=\"mailto:" + d.email.value + "\">EMAIL</a>" else ""),
      "\n            ",
      (if Truthy(d.website) then "<a href=\"https://" + d.website.value + DarkWebsiteTail else ""),
      "\n        </div>\n        ",
      sectionsHtml,
      HtmlFoot
    ]
  }

  /** `template_dark_minimal(data)` */
  function DarkPage(d: Resume): string {
    Join(DarkParts(d, ConcatMap(DarkSection, Sections(d))))
  }

  /** One pass of the outer loop of `template_dark_minimal`: what one section adds to the
      page. A text-content section adds one block per described item. */
  method RenderDarkSection(section: Section) returns (out: string)
    ensures out == DarkSection(section)
  {
    var kind := Kind(section);
    var title := Heading(section);
    var items := Items(section);
    out := "";
    if kind == "timeline" {
      var itemsHtml := "";
      var j := 0;
      while j < |items|
        invariant 0 <= j <= |items|
        invariant itemsHtml == ConcatMap(DarkTimelineItem, items[..j])
      {
        ConcatMapSnoc(DarkTimelineItem, items, j);
        itemsHtml := itemsHtml + DarkTimelineItem(items[j]);
        j := j + 1;
      }
      assert items[..j] == items;
      out := DarkTimelineWrap(title, itemsHtml);
    } else if kind == "grid-list" {
      var itemsHtml := "";
      var j := 0;
      while j < |items|
        invariant 0 <= j <= |items|
        invariant itemsHtml == ConcatMap(DarkGridCard, items[..j])
      {
        ConcatMapSnoc(DarkGridCard, items, j);
        itemsHtml := itemsHtml + DarkGridCard(items[j]);
        j := j + 1;
      }
      assert items[..j] == items;
      out := DarkGridWrap(title, itemsHtml);
    } else {
      var j := 0;
      while j < |items|
        invariant 0 <= j <= |items|
        invariant out == ConcatMap(DarkTextEntry(title), items[..j])
      {
        ConcatMapSnoc(DarkTextEntry(title), items, j);
        var item := items[j];
        if Truthy(item.description) {
          out := out + DarkTextBlock(title, item.description.value);
        }
        j := j + 1;
      }
      assert items[..j] == items;
    }
  }

  /** The loops of `template_dark_minimal`, building the page piece by piece. */
  method RenderDark(d: Resume) returns (html: string)
    ensures html == DarkPage(d)
  {
    var sections := Sections(d);
    var sectionsHtml := "";
    var i := 0;
    while i < |sections|
      invariant 0 <= i <= |sections|
      invariant sectionsHtml == ConcatMap(DarkSection, sections[..i])
    {
      ConcatMapSnoc(DarkSection, sections, i);
      var sectionHtml := RenderDarkSection(sections[i]);
      sectionsHtml := sectionsHtml + sectionHtml;
      i := i + 1;
    }
    assert sections[..i] == sections;
    html := Join(DarkParts(d, sectionsHtml));
  }

  /** Both the `<title>` and the heading show the name, "" when it is absent. */
  lemma DarkNameShown(d: Resume)
    ensures Contains(DarkPage(d), "<title>" + Get(d.name, "") + "</title>")
    ensures Contains(DarkPage(d), "<h1>" + Get(d.name, "") + "</h1>")
  {
    var parts := DarkParts(d, ConcatMap(DarkSection, Sections(d)));
    JoinContains(parts, 1);
    JoinContains(parts, 5);
  }

  lemma DarkEmailLink(d: Resume)
    requires Truthy(d.email)
    ensures Contains(DarkPage(d), "<a href=\"mailto:" + d.email.value + "\">EMAIL</a>")
  {
    JoinContains(DarkParts(d, ConcatMap(DarkSection, Sections(d))), 11);
  }

  lemma DarkWebsiteLink(d: Resume)
    requires Truthy(d.website)
    ensures Contains(DarkPage(d), "<a href=\"https://" + d.website.value + DarkWebsiteTail)
  {
    JoinContains(DarkParts(d, ConcatMap(DarkSection, Sections(d))), 13);
  }

  lemma DarkSectionsInOrder(d: Resume, i: nat, j: nat)
    requires i < j < |Sections(d)|
    ensures Precedes(DarkPage(d), DarkSection(Sections(d)[i]), DarkSection(Sections(d)[j]))
  {
    var body := ConcatMap(DarkSection, Sections(d));
    ConcatMapPrecedes(DarkSection, Sections(d), i, j);
    JoinContains(DarkParts(d, body), 15);
    PrecedesInside(DarkPage(d), body, DarkSection(Sections(d)[i]), DarkSection(Sections(d)[j]));
  }

  /** A "timeline" section holds each item's timeline entry, a "grid-list"
      section each item's card, and any other type, or none, takes the
      text-content branch, where each item with a description gets a section
      of its own under the section's title. */
  lemma DarkDispatch(s: Section, i: nat)
    requires i < |Items(s)|
    ensures Kind(s) == "timeline" ==> Contains(DarkSection(s), DarkTimelineItem(Items(s)[i]))
    ensures Kind(s) == "grid-list" ==> Contains(DarkSection(s), DarkGridCard(Items(s)[i]))
    ensures Kind(s) != "timeline" && Kind(s) != "grid-list" && Truthy(Items(s)[i].description) ==>
      Contains(DarkSection(s), DarkTextBlock(Heading(s), Items(s)[i].description.value))
    ensures s.kind.None? ==> DarkSection(s) == DarkSection(s.(kind := Some("text-content")))
  {
    if Kind(s) == "timeline" {
      ConcatMapContains(DarkTimelineItem, Items(s), i);
      ContainsInPart("<section><h2>" + Heading(s) + "</h2>", ConcatMap(DarkTimelineItem, Items(s)), "</section>", DarkTimelineItem(Items(s)[i]));
    } else if Kind(s) == "grid-list" {
      ConcatMapContains(DarkGridCard, Items(s), i);
      ContainsInPart("<section><h2>" + Heading(s) + "</h2><div class=\"grid\">", ConcatMap(DarkGridCard, Items(s)), "</div></section>", DarkGridCard(Items(s)[i]));
    } else {
      ConcatMapContains(DarkTextEntry(Heading(s)), Items(s), i);
    }
  }

  lemma DarkTextSectionEmptyIff(s: Section)
    requires Kind(s) != "timeline" && Kind(s) != "grid-list"
    ensures DarkSection(s) == "" <==> forall k :: 0 <= k < |Items(s)| ==> !Truthy(Items(s)[k].description)
  {
    ConcatMapEmptyIff(DarkTextEntry(Heading(s)), Items(s));
  }

  /** The item with only its title and description kept. */
  function TitleAndDescription(it: Item): Item {
    Item(it.title, None, None, it.description, None)
  }

  /** A dark-minimal grid card shows the title and the description only: a grid
      section renders the same once every item's subtitle, date and tags are dropped. */
  lemma DarkGridShowsTitleAndDescription(s: Section)
    requires Kind(s) == "grid-list"
    ensures DarkSection(s) == DarkSection(s.(items := Some(seq(|Items(s)|, k requires 0 <= k < |Items(s)| => TitleAndDescription(Items(s)[k])))))
  {
    var s' := s.(items := Some(seq(|Items(s)|, k requires 0 <= k < |Items(s)| => TitleAndDescription(Items(s)[k]))));
    ConcatMapPointwise(DarkGridCard, Items(s), DarkGridCard, Items(s'));
  }

  // ---------------------------------------------------------------- academic light

  /** The "subtitle | date" line. */
  function LightMeta(it: Item): string {
    if Truthy(it.subtitle) || Truthy(it.date) then "<p class=\"meta\">" + Get(it.subtitle, "") + " | " + Get(it.date, "") + "</p>" else ""
  }

  function LightEntry(it: Item): string {
    Join([
      LightEntryOpen,
      "<h3>" + Get(it.title, "") + "</h3>",
      "\n                ",
      LightMeta(it),
      "\n                ",
      (if Truthy(it.description) then "<p class=\"desc\">" + it.description.value + "</p>" else ""),
      LightEntryClose
    ])
  }

  function LightWrap(title: string, itemsHtml: string): string {
    "<section><h2>" + title + "</h2>" + itemsHtml + "</section>"
  }

  /** Every section is a list of entries, whatever its type. */
  function LightSection(s: Section): string {
    LightWrap(Heading(s), ConcatMap(LightEntry, Items(s)))
  }

  function LightParts(d: Resume, sectionsHtml: string): seq<string> {
    [
      HtmlHead,
      "<title>" + Get(d.name, "") + "</title>",
      "\n    ",
      LightStyle,
      PlainBodyOpen,
      "<h1>" + Get(d.name, "") + "</h1>",
      "\n        ",
      (if Truthy(d.title) then "<p class=\"title\">" + d.title.value + "</p>" else ""),
      "\n        ",
      "<div class=\"contact\">",
      "\n            ",
      (if Truthy(d.email) then "<a href=\"mailto:" + d.email.value + "\">" + d.email.value + "</a>" else ""),
      "\n            ",
      (if Truthy(d.website) then "<a href=\"https://" + d.website.value + "\" target=\"_blank\">" + d.website.value + "</a>" else ""),
      "\n        </div>\n        ",
      (if Truthy(d.bio) then "<p class=\"bio\">" + d.bio.value + "</p>" else ""),
      "\n        ",
      sectionsHtml,
      HtmlFoot
    ]
  }

  /** `template_academic_light(data)` */
  function LightPage(d: Resume): string {
    Join(LightParts(d, ConcatMap(LightSection, Sections(d))))
  }

  /** The loops of `template_academic_light`. */
  method RenderLight(d: Resume) returns (html: string)
    ensures html == LightPage(d)
  {
    var sections := Sections(d);
    var sectionsHtml := "";
    var i := 0;
    while i < |sections|
      invariant 0 <= i <= |sections|
      invariant sectionsHtml == ConcatMap(LightSection, sections[..i])
    {
      var section := sections[i];
      var title := Heading(section);
      var items := Items(section);
      var itemsHtml := "";
      var j := 0;
      while j < |items|
        invariant 0 <= j <= |items|
        invariant itemsHtml == ConcatMap(LightEntry, items[..j])
      {
        ConcatMapSnoc(LightEntry, items, j);
        itemsHtml := itemsHtml + LightEntry(items[j]);
        j := j + 1;
      }
      assert items[..j] == items;
      ConcatMapSnoc(LightSection, sections, i);
      sectionsHtml := sectionsHtml + LightWrap(title, itemsHtml);
      i := i + 1;
    }
    assert sections[..i] == sections;
    html := Join(LightParts(d, sectionsHtml));
  }

  /** The meta line is there exactly when the subtitle or the date is truthy,
      and then shows both, an absent one as "". */
  lemma LightMetaIff(it: Item)
    ensures LightMeta(it) != "" <==> Truthy(it.subtitle) || Truthy(it.date)
    ensures Truthy(it.subtitle) || Truthy(it.date) ==>
      Contains(LightEntry(it), "<p class=\"meta\">" + Get(it.subtitle, "") + " | " + Get(it.date, "") + "</p>")
  {
    JoinContains([
      LightEntryOpen,
      "<h3>" + Get(it.title, "") + "</h3>",
      "\n                ",
      LightMeta(it),
      "\n                ",
      (if Truthy(it.description) then "<p class=\"desc\">" + it.description.value + "</p>" else ""),
      LightEntryClose
    ], 3);
  }

  /** This theme ignores the section type: two résumés whose sections agree in
      title and items render the same page. */
  lemma LightIgnoresType(d: Resume, e: Resume)
    requires d.name == e.name && d.title == e.title && d.email == e.email && d.website == e.website && d.bio == e.bio
    requires |Sections(d)| == |Sections(e)|
    requires forall k :: 0 <= k < |Sections(d)| ==> Sections(d)[k].title == Sections(e)[k].title && Sections(d)[k].items == Sections(e)[k].items
    ensures LightPage(d) == LightPage(e)
  {
    ConcatMapPointwise(LightSection, Sections(d), LightSection, Sections(e));
    var body := ConcatMap(LightSection, Sections(d));
    assert LightParts(d, body) == LightParts(e, body);
  }

  lemma LightEmailLink(d: Resume)
    requires Truthy(d.email)
    ensures Contains(LightPage(d), "<a href=\"mailto:" + d.email.value + "\">" + d.email.value + "</a>")
  {
    JoinContains(LightParts(d, ConcatMap(LightSection, Sections(d))), 11);
  }

  lemma LightWebsiteLink(d: Resume)
    requires Truthy(d.website)
    ensures Contains(LightPage(d), "<a href=\"https://" + d.website.value + "\" target=\"_blank\">" + d.website.value + "</a>")
  {
    JoinContains(LightParts(d, ConcatMap(LightSection, Sections(d))), 13);
  }

  /** In this theme the bio comes after the contact links. */
  lemma LightBioAfterContact(d: Resume)
    requires Truthy(d.bio)
    ensures Precedes(LightPage(d), "<div class=\"contact\">", "<p class=\"bio\">" + d.bio.value + "</p>")
  {
    JoinPrecedes(LightParts(d, ConcatMap(LightSection, Sections(d))), 9, 15);
  }

  lemma LightSectionsInOrder(d: Resume, i: nat, j: nat)
    requires i < j < |Sections(d)|
    ensures Precedes(LightPage(d), LightSection(Sections(d)[i]), LightSection(Sections(d)[j]))
  {
    var body := ConcatMap(LightSection, Sections(d));
    ConcatMapPrecedes(LightSection, Sections(d), i, j);
    JoinContains(LightParts(d, body), 17);
    PrecedesInside(LightPage(d), body, LightSection(Sections(d)[i]), LightSection(Sections(d)[j]));
  }

  // ---------------------------------------------------------------- all themes

  /** The `themes` table: id, display name and template function, in insertion order. */
  const Themes: seq<(string, string, Resume -> string)> := [
    ("gradient_purple", "紫色渐变科技风", PurplePage),
    ("dark_minimal", "暗黑极简风", DarkPage),
    ("academic_light", "轻简学术风", LightPage)
  ]

  /** `f"homepage_{theme_id}.html"` */
  function FileName(id: string): (f: string)
    ensures |f| == |id| + 14
  {
    "homepage_" + id + ".html"
  }

  /** Different theme ids give different file names. */
  lemma FileNameInjective(a: string, b: string)
    requires FileName(a) == FileName(b)
    ensures a == b
  {
    assert a == FileName(a)[9..9 + |a|];
    assert b == FileName(b)[9..9 + |b|];
  }

  /** Theme ids, display names and file names are all different. */
  lemma ThemesDistinct()
    ensures forall m, n :: 0 <= m < n < |Themes| ==>
      Themes[m].0 != Themes[n].0 && Themes[m].1 != Themes[n].1 && FileName(Themes[m].0) != FileName(Themes[n].0)
  {
    forall m, n | 0 <= m < n < |Themes|
      ensures Themes[m].0 != Themes[n].0 && Themes[m].1 != Themes[n].1 && FileName(Themes[m].0) != FileName(Themes[n].0)
    {
      assert Themes[0].0[0] == 'g' && Themes[1].0[0] == 'd' && Themes[2].0[0] == 'a';
      assert Themes[0].1[0] == '紫' && Themes[1].1[0] == '暗' && Themes[2].1[0] == '轻';
      if FileName(Themes[m].0) == FileName(Themes[n].0) {
        FileNameInjective(Themes[m].0, Themes[n].0);
      }
    }
  }

  /** Display names of the first `k` entries of a theme table. */
  function Names(themes: seq<(string, string, Resume -> string)>, k: nat): (names: set<string>)
    requires k <= |themes|
    ensures forall m :: 0 <= m < k ==> themes[m].1 in names
  {
    if k == 0 then {} else Names(themes, k - 1) + {themes[k - 1].1}
  }

  /** File names of the first `k` entries of a theme table. */
  function FileNames(themes: seq<(string, string, Resume -> string)>, k: nat): (names: set<string>)
    requires k <= |themes|
    ensures forall m :: 0 <= m < k ==> FileName(themes[m].0) in names
  {
    if k == 0 then {} else FileNames(themes, k - 1) + {FileName(themes[k - 1].0)}
  }

  /** The loop of `generate_all_themes` over a table of (id, display name,
      template function) entries whose ids are different, as the keys of a
      dictionary are: each template renders the data into the file named
      after its id, and the display name is mapped to that file name, a later
      entry of the same display name overwriting an earlier one. */
  method WriteThemes(themes: seq<(string, string, Resume -> string)>, data: Resume)
    returns (results: map<string, string>, files: map<string, string>)
    requires forall m, n :: 0 <= m < n < |themes| ==> themes[m].0 != themes[n].0
    ensures results.Keys == Names(themes, |themes|) && files.Keys == FileNames(themes, |themes|)
    ensures forall k :: 0 <= k < |themes| ==> files[FileName(themes[k].0)] == themes[k].2(data)
    ensures forall k :: 0 <= k < |themes| && (forall n :: k < n < |themes| ==> themes[n].1 != themes[k].1) ==>
      results[themes[k].1] == FileName(themes[k].0)
  {
    results, files := map[], map[];
    var k := 0;
    while k < |themes|
      invariant 0 <= k <= |themes|
      invariant results.Keys == Names(themes, k) && files.Keys == FileNames(themes, k)
      invariant forall m :: 0 <= m < k ==> files[FileName(themes[m].0)] == themes[m].2(data)
      invariant forall m :: 0 <= m < k && (forall n :: m < n < k ==> themes[n].1 != themes[m].1) ==>
        results[themes[m].1] == FileName(themes[m].0)
    {
      var (id, name, template) := themes[k];
      var html := template(data);
      var fileName := FileName(id);
      forall m | 0 <= m < k ensures FileName(themes[m].0) != fileName {
        if FileName(themes[m].0) == fileName {
          FileNameInjective(themes[m].0, id);
        }
      }
      files := files[fileName := html];
      results := results[name := fileName];
      k := k + 1;
    }
  }

  /** What `generate_all_themes` is given: a JSON text or an already decoded dictionary. */
  datatype ThemesInput = JsonText(text: string) | Decoded(data: Resume)

  /** `generate_all_themes(json_data)` with `json.loads` as `loads` (None when it
      raises, and then nothing is written). Otherwise it returns the map from
      each theme's display name to its file name, and `files` holds what it
      writes, file name to page. */
  method GenerateAllThemes(input: ThemesInput, loads: string -> Option<Resume>)
    returns (results: Option<map<string, string>>, files: map<string, string>)
    ensures results.None? <==> input.JsonText? && loads(input.text).None?
    ensures results.None? ==> files == map[]
    ensures results.Some? ==>
      var d := if input.Decoded? then input.data else loads(input.text).value;
      && results.value.Keys == Names(Themes, |Themes|)
      && files.Keys == FileNames(Themes, |Themes|)
      && forall k :: 0 <= k < |Themes| ==>
           results.value[Themes[k].1] == FileName(Themes[k].0)
           && files[FileName(Themes[k].0)] == Themes[k].2(d)
  {
    var data: Resume;
    if input.JsonText? {
      var decoded := loads(input.text);
      if decoded.None? {
        return None, map[];
      }
      data := decoded.value;
    } else {
      data := input.data;
    }
    ThemesDistinct();
    var r;
    r, files := WriteThemes(Themes, data);
    results := Some(r);
  }
}
