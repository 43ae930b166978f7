/** gradio_app.py: `generate_html`, the single theme of the first Gradio
    app. Timeline, grid and text sections always print every field of an
    item, with "" for a missing one; only the email and website links are
    conditional. Markup is reproduced character for character, the `<style>`
    block is stood in for by a constant, and text is spliced in as it is. */
module GradioApp {
  import opened Base
  import opened ResumeData

  const AppStyle: string := "<style>/* gradient card layout, timeline, grid container, responsive rules */</style>"

  const AppTimelineOpen: string := "\n" + "                <div class=\"timeline-item\">\n" + "                    <div class=\"timeline-marker\"></div>\n" + "                    <div class=\"timeline-content\">\n" + "                        "
  const AppTimelineClose: string := "\n" + "                    </div>\n" + "                </div>\n" + "                "
  const AppCardOpen: string := "\n" + "                <div class=\"grid-card\">\n" + "                    "
  const AppCardClose: string := "\n" + "                </div>\n" + "                "
  const AppSectionOpen: string := "\n" + "            <section class=\"section\">\n" + "                "
  const AppSectionClose: string := "\n" + "                </div>\n" + "            </section>\n" + "            "
  const AppHead: string := "\n" + "    <!DOCTYPE html>\n" + "    <html lang=\"zh-TW\">\n" + "    <head>\n" + "        <meta charset=\"UTF-8\">\n" + "        <meta name=\"viewport\" content=\"width=device-width, initial-scale=1.0\">\n" + "        "
  const AppHeroOpen: string := "\n" + "    </head>\n" + "    <body>\n" + "        <div class=\"container\">\n" + "            <div class=\"hero\">\n" + "                "
  const AppContactOpen: string := "\n" + "                <div class=\"contact\">\n" + "                    "
  const AppWebsiteTail: string := "\" target=\"_blank\">🌐 個人網站</a>"
  const AppHeroClose: string := "\n" + "                </div>\n" + "            </div>\n" + "            \n" + "            "
  const AppFoot: string := "\n" + "        </div>\n" + "    </body>\n" + "    </html>\n" + "    "

  const TimelineDiv: string := "<div class=\"timeline\">"
  const GridDiv: string := "<div class=\"grid-container\">"
  const TextDiv: string := "<div class=\"text-content\">"

  const Indent16: string := "\n                "
  const Indent20: string := "\n                    "
  const Indent24: string := "\n                        "

  function AppTimelineParts(it: Item): seq<string> {
    [
      AppTimelineOpen,
      "<h3>" + Get(it.title, "") + "</h3>",
      Indent24,
      "<p class=\"subtitle\">" + Get(it.subtitle, "") + "</p>",
      Indent24,
      "<p class=\"date\">" + Get(it.date, "") + "</p>",
      Indent24,
      "<p class=\"description\">" + Get(it.description, "") + "</p>",
      AppTimelineClose
    ]
  }

  /** One timeline entry. */
  function AppTimelineItem(it: Item): string {
    Join(AppTimelineParts(it))
  }

  function AppTag(tag: string): string {
    "<span class=\"tag\">" + tag + "</span>"
  }

  /** `tags_html`: `"".join(...)` over the item's tags. */
  function AppChips(it: Item): string {
    ConcatMap(AppTag, Tags(it))
  }

  function AppCardParts(it: Item): seq<string> {
    [
      AppCardOpen,
      "<h3>" + Get(it.title, "") + "</h3>",
      Indent20,
      "<p class=\"subtitle\">" + Get(it.subtitle, "") + "</p>",
      Indent20,
      "<p class=\"date\">" + Get(it.date, "") + "</p>",
      Indent20,
      "<p class=\"description\">" + Get(it.description, "") + "</p>",
      Indent20,
      "<div class=\"tags\">" + AppChips(it) + "</div>",
      AppCardClose
    ]
  }

  /** One grid card. */
  function AppGridCard(it: Item): string {
    Join(AppCardParts(it))
  }

  /** One paragraph of a text section. */
  function AppParagraph(it: Item): string {
    "<p>" + Get(it.description, "") + "</p>"
  }

  /** The three section f-strings differ only in the inner `<div>` tag. */
  function AppWrapParts(container: string, title: string, itemsHtml: string): seq<string> {
    [
      AppSectionOpen,
      "<h2 class=\"section-title\">" + title + "</h2>",
      Indent16,
      container,
      Indent20,
      itemsHtml,
      AppSectionClose
    ]
  }

  function AppWrap(container: string, title: string, itemsHtml: string): string {
    Join(AppWrapParts(container, title, itemsHtml))
  }

  /** One section: a timeline, a grid, or, for any other or a missing type, text. */
  function AppSection(s: Section): string {
    if Kind(s) == "timeline" then AppWrap(TimelineDiv, Heading(s), ConcatMap(AppTimelineItem, Items(s)))
    else if Kind(s) == "grid-list" then AppWrap(GridDiv, Heading(s), ConcatMap(AppGridCard, Items(s)))
    else AppWrap(TextDiv, Heading(s), ConcatMap(AppParagraph, Items(s)))
  }

  /** The returned page, around the accumulated sections. */
  function AppPageParts(d: Resume, sectionsHtml: string): seq<string> {
    [
      AppHead,
      "<title>" + Get(d.name, "學術主頁") + "</title>",
      "\n        ",
      AppStyle,
      AppHeroOpen,
      "<h1>" + Get(d.name, "") + "</h1>",
      Indent16,
      "<p class=\"title\">" + Get(d.title, "") + "</p>",
      Indent16,
      "<p class=\"bio\">" + Get(d.bio, "") + "</p>",
      AppContactOpen,
      (if Truthy(d.email) then "<a href=\"mailto:" + Get(d.email, "") + "\">📧 " + Get(d.email, "") + "</a>" else ""),
      Indent20,
      (if Truthy(d.website) then "<a href=\"" + Get(d.website, "") + AppWebsiteTail else ""),
      AppHeroClose,
      sectionsHtml,
      AppFoot
    ]
  }

  /** `generate_html(data)` */
  function AppPage(d: Resume): string {
    Join(AppPageParts(d, ConcatMap(AppSection, Sections(d))))
  }

  /** One pass of the outer loop of `generate_html`: the container of one
      section, filled by the inner loop its type selects. */
  method RenderAppSection(section: Section) returns (out: string)
    ensures out == AppSection(section)
  {
    var kind := Kind(section);
    var title := Heading(section);
    var items := Items(section);
    var itemsHtml := "";
    if kind == "timeline" {
      var j := 0;
      while j < |items|
        invariant 0 <= j <= |items|
        invariant itemsHtml == ConcatMap(AppTimelineItem, items[..j])
      {
        ConcatMapSnoc(AppTimelineItem, items, j);
        itemsHtml := itemsHtml + AppTimelineItem(items[j]);
        j := j + 1;
      }
      assert items[..j] == items;
      out := AppWrap(TimelineDiv, title, itemsHtml);
    } else if kind == "grid-list" {
      var j := 0;
      while j < |items|
        invariant 0 <= j <= |items|
        invariant itemsHtml == ConcatMap(AppGridCard, items[..j])
      {
        ConcatMapSnoc(AppGridCard, items, j);
        itemsHtml := itemsHtml + AppGridCard(items[j]);
        j := j + 1;
      }
      assert items[..j] == items;
      out := AppWrap(GridDiv, title, itemsHtml);
    } else {
      var j := 0;
      while j < |items|
        invariant 0 <= j <= |items|
        invariant itemsHtml == ConcatMap(AppParagraph, items[..j])
      {
        ConcatMapSnoc(AppParagraph, items, j);
        itemsHtml := itemsHtml + AppParagraph(items[j]);
        j := j + 1;
      }
      assert items[..j] == items;
      out := AppWrap(TextDiv, title, itemsHtml);
    }
  }

  /** The loops of `generate_html`, building the page piece by piece. */
  method GenerateHtml(d: Resume) returns (html: string)
    ensures html == AppPage(d)
  {
    var sections := Sections(d);
    var sectionsHtml := "";
    var i := 0;
    while i < |sections|
      invariant 0 <= i <= |sections|
      invariant sectionsHtml == ConcatMap(AppSection, sections[..i])
    {
      ConcatMapSnoc(AppSection, sections, i);
      var sectionHtml := RenderAppSection(sections[i]);
      sectionsHtml := sectionsHtml + sectionHtml;
      i := i + 1;
    }
    assert sections[..i] == sections;
    html := Join(AppPageParts(d, sectionsHtml));
  }

  /** The section type picks the container: "timeline", "grid-list", and
      text content for every other type and for a missing one. */
  lemma AppDispatch(s: Section)
    ensures Kind(s) == "timeline" ==> Contains(AppSection(s), TimelineDiv)
    ensures Kind(s) == "grid-list" ==> Contains(AppSection(s), GridDiv)
    ensures Kind(s) != "timeline" && Kind(s) != "grid-list" ==> Contains(AppSection(s), TextDiv)
    ensures s.kind.None? ==> Contains(AppSection(s), TextDiv)
  {
    if Kind(s) == "timeline" {
      JoinContains(AppWrapParts(TimelineDiv, Heading(s), ConcatMap(AppTimelineItem, Items(s))), 3);
    } else if Kind(s) == "grid-list" {
      JoinContains(AppWrapParts(GridDiv, Heading(s), ConcatMap(AppGridCard, Items(s))), 3);
    } else {
      JoinContains(AppWrapParts(TextDiv, Heading(s), ConcatMap(AppParagraph, Items(s))), 3);
    }
  }

  /** A text section holds one paragraph per item, in item order; an item
      without a description gives an empty `<p></p>`. */
  lemma AppTextParagraphs(s: Section, i: nat, j: nat)
    requires Kind(s) != "timeline" && Kind(s) != "grid-list"
    requires i < j < |Items(s)|
    ensures Precedes(AppSection(s), "<p>" + Get(Items(s)[i].description, "") + "</p>", "<p>" + Get(Items(s)[j].description, "") + "</p>")
  {
    var body := ConcatMap(AppParagraph, Items(s));
    ConcatMapPrecedes(AppParagraph, Items(s), i, j);
    JoinContains(AppWrapParts(TextDiv, Heading(s), body), 5);
    PrecedesInside(AppSection(s), body, AppParagraph(Items(s)[i]), AppParagraph(Items(s)[j]));
  }

  /** An item without a description still gets its paragraph, an empty one. */
  lemma AppParagraphMissing(it: Item)
    requires it.description.None?
    ensures AppParagraph(it) == "<p></p>"
  {
    assert "<p>" + "" + "</p>" == "<p></p>";
  }

  /** The paragraphs of a text section are empty only when it has no items. */
  lemma AppTextEmptyIff(s: Section)
    ensures ConcatMap(AppParagraph, Items(s)) == "" <==> Items(s) == []
  {
    ConcatMapEmptyIff(AppParagraph, Items(s));
    if Items(s) != [] {
      assert AppParagraph(Items(s)[0]) != "";
    }
  }

  /** Timeline entries and grid cards print subtitle, date and description
      paragraphs whether or not the fields are there. */
  lemma AppItemFieldsAlways(it: Item)
    ensures Contains(AppTimelineItem(it), "<p class=\"subtitle\">" + Get(it.subtitle, "") + "</p>")
    ensures Contains(AppTimelineItem(it), "<p class=\"date\">" + Get(it.date, "") + "</p>")
    ensures Contains(AppTimelineItem(it), "<p class=\"description\">" + Get(it.description, "") + "</p>")
    ensures Contains(AppGridCard(it), "<p class=\"subtitle\">" + Get(it.subtitle, "") + "</p>")
    ensures Contains(AppGridCard(it), "<p class=\"date\">" + Get(it.date, "") + "</p>")
    ensures Contains(AppGridCard(it), "<p class=\"description\">" + Get(it.description, "") + "</p>")
  {
    JoinContains(AppTimelineParts(it), 3);
    JoinContains(AppTimelineParts(it), 5);
    JoinContains(AppTimelineParts(it), 7);
    JoinContains(AppCardParts(it), 3);
    JoinContains(AppCardParts(it), 5);
    JoinContains(AppCardParts(it), 7);
  }

  /** Every grid card has a tags `<div>`, empty when there are no tags, holding
      the chips in tag order. */
  lemma AppTagsAlways(it: Item)
    ensures Contains(AppGridCard(it), "<div class=\"tags\">" + AppChips(it) + "</div>")
    ensures Tags(it) == [] ==> Contains(AppGridCard(it), "<div class=\"tags\"></div>")
  {
    JoinContains(AppCardParts(it), 9);
    if Tags(it) == [] {
      assert AppChips(it) == "";
      assert "<div class=\"tags\">" + "" + "</div>" == "<div class=\"tags\"></div>";
    }
  }

  lemma AppChipsInOrder(it: Item, i: nat, j: nat)
    requires i < j < |Tags(it)|
    ensures Precedes(AppChips(it), AppTag(Tags(it)[i]), AppTag(Tags(it)[j]))
  {
    ConcatMapPrecedes(AppTag, Tags(it), i, j);
  }

  /** The `<title>` falls back to "學術主頁" only when the name is absent;
      the heading, the title line and the bio line are always there. */
  lemma AppHeaderShown(d: Resume)
    ensures d.name.Some? ==> Contains(AppPage(d), "<title>" + d.name.value + "</title>")
    ensures d.name.None? ==> Contains(AppPage(d), "<title>" + "學術主頁" + "</title>")
    ensures Contains(AppPage(d), "<h1>" + Get(d.name, "") + "</h1>")
    ensures Contains(AppPage(d), "<p class=\"title\">" + Get(d.title, "") + "</p>")
    ensures Contains(AppPage(d), "<p class=\"bio\">" + Get(d.bio, "") + "</p>")
  {
    var parts := AppPageParts(d, ConcatMap(AppSection, Sections(d)));
    JoinContains(parts, 1);
    JoinContains(parts, 5);
    JoinContains(parts, 7);
    JoinContains(parts, 9);
  }

  /** The email link shows the address itself; the website link uses the
      website text as its href as it is, with no scheme added. */
  lemma AppContactLinks(d: Resume)
    ensures Truthy(d.email) ==> Contains(AppPage(d), "<a href=\"mailto:" + d.email.value + "\">📧 " + d.email.value + "</a>")
    ensures Truthy(d.website) ==> Contains(AppPage(d), "<a href=\"" + d.website.value + "\" target=\"_blank\">🌐 個人網站</a>")
  {
    var parts := AppPageParts(d, ConcatMap(AppSection, Sections(d)));
    JoinContains(parts, 11);
    JoinContains(parts, 13);
  }

  /** Truthiness and the "" defaults make an empty field render like a missing one. */
  lemma AppEmptyAsAbsent(d: Resume)
    ensures AppPage(d.(title := Some(""), bio := Some(""), email := Some(""), website := Some("")))
         == AppPage(d.(title := None, bio := None, email := None, website := None))
  {
    var body := ConcatMap(AppSection, Sections(d));
    assert AppPageParts(d.(title := Some(""), bio := Some(""), email := Some(""), website := Some("")), body)
        == AppPageParts(d.(title := None, bio := None, email := None, website := None), body);
  }

  /** Sections are rendered in the order of the input. */
  lemma AppSectionsInOrder(d: Resume, i: nat, j: nat)
    requires i < j < |Sections(d)|
    ensures Precedes(AppPage(d), AppSection(Sections(d)[i]), AppSection(Sections(d)[j]))
  {
    var body := ConcatMap(AppSection, Sections(d));
    ConcatMapPrecedes(AppSection, Sections(d), i, j);
    JoinContains(AppPageParts(d, body), 15);
    PrecedesInside(AppPage(d), body, AppSection(Sections(d)[i]), AppSection(Sections(d)[j]));
  }
}
