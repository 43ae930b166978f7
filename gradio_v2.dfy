/** gradio_v2_app.py: the four templates of the second Gradio app (dark
    tech, gradient purple, academic minimal, neon cyber), the `TEMPLATES`
    table with `update_info`, and the README written by `generate_project`.
    None of the templates reads the section type: every section is a list of
    items with the same markup. Markup is reproduced character for character,
    each `<style>` block is stood in for by a constant, and text is spliced in
    as it is. */
module GradioV2 {
  import opened Base
  import opened ResumeData
  import opened Text

  const TechStyle: string := "<style>/* dark tech: slate gradient, cyan accents */</style>"
  const PurpleStyle: string := "<style>/* gradient purple: glass cards in a grid */</style>"
  const MinimalStyle: string := "<style>/* academic minimal: white page, date column */</style>"
  const NeonStyle: string := "<style>/* neon cyber: black page, neon green monospace */</style>"

  const ZhHead: string := "<!DOCTYPE html>\n" + "<html lang=\"zh\"><head><meta charset=\"UTF-8\"><meta name=\"viewport\" content=\"width=device-width, initial-scale=1.0\">\n"
  const HeroBodyOpen: string := "</head>\n" + "<body><div class=\"container\">\n" + "<div class=\"hero\">\n"
  const PlainBodyOpen: string := "</head>\n" + "<body><div class=\"container\">\n"
  const PageFoot: string := "\n</div></body></html>"
  const ContactDiv: string := "<div class=\"contact\">"
  const TechItemOpen: string := "\n" + "            <div class=\"item\">\n" + "                "
  const PurpleCardOpen: string := "\n" + "            <div class=\"card\">\n" + "                "
  const ItemClose: string := "\n            </div>"
  const MinimalEntryOpen: string := "\n" + "            <div class=\"entry\">\n" + "                <div class=\"meta\">"
  const MinimalContentOpen: string := "</div>\n" + "                <div class=\"content\">\n" + "                    "
  const MinimalEntryClose: string := "\n" + "                </div>\n" + "            </div>"
  const TechWebsiteTail: string := "\" target=\"_blank\">🌐 Website</a>"
  const NeonWebsiteTail: string := "\" target=\"_blank\">WEBSITE</a>"
  const Indent16: string := "\n                "
  const Indent20: string := "\n                    "

  // ---------------------------------------------------------------- items and sections

  function TechItemParts(it: Item): seq<string> {
    [
      TechItemOpen,
      "<h3>" + Get(it.title, "") + "</h3>",
      Indent16,
      "<p class=\"sub\">" + Get(it.subtitle, "") + "</p>",
      Indent16,
      "<p class=\"date\">" + Get(it.date, "") + "</p>",
      Indent16,
      (if Truthy(it.description) then "<p class=\"desc\">" + it.description.value + "</p>" else ""),
      ItemClose
    ]
  }

  /** One item of `template_dark_tech`; `template_neon_cyber` uses the same markup. */
  function TechItem(it: Item): string {
    Join(TechItemParts(it))
  }

  function PurpleCardParts(it: Item): seq<string> {
    [
      PurpleCardOpen,
      "<h3>" + Get(it.title, "") + "</h3>",
      Indent16,
      "<p class=\"sub\">" + Get(it.subtitle, "") + "</p>",
      Indent16,
      "<span class=\"date\">" + Get(it.date, "") + "</span>",
      Indent16,
      (if Truthy(it.description) then "<p class=\"desc\">" + it.description.value + "</p>" else ""),
      ItemClose
    ]
  }

  /** One card of `template_gradient_purple`. */
  function PurpleCard(it: Item): string {
    Join(PurpleCardParts(it))
  }

  function MinimalEntryParts(it: Item): seq<string> {
    [
      MinimalEntryOpen,
      "<span class=\"date\">" + Get(it.date, "") + "</span>",
      MinimalContentOpen,
      "<h3>" + Get(it.title, "") + "</h3>",
      Indent20,
      "<p class=\"org\">" + Get(it.subtitle, "") + "</p>",
      Indent20,
      (if Truthy(it.description) then "<p class=\"desc\">" + it.description.value + "</p>" else ""),
      MinimalEntryClose
    ]
  }

  /** One entry of `template_academic_minimal`: the date in a meta column, then the content. */
  function MinimalEntry(it: Item): string {
    Join(MinimalEntryParts(it))
  }

  /** The section markup of `template_dark_tech` and `template_academic_minimal`. */
  function PlainWrap(title: string, itemsHtml: string): string {
    Join(["<section>", "<h2>" + title + "</h2>", itemsHtml, "</section>"])
  }

  function PurpleWrap(title: string, itemsHtml: string): string {
    Join(["<section>", "<h2>" + title + "</h2>", "<div class=\"grid\">" + itemsHtml + "</div>", "</section>"])
  }

  /** The section markup of `template_neon_cyber`: the heading is prompted by "&gt; ". */
  function NeonWrap(title: string, itemsHtml: string): string {
    Join(["<section>", "<h2>&gt; " + title + "</h2>", itemsHtml, "</section>"])
  }

  function TechSection(s: Section): string {
    PlainWrap(Heading(s), ConcatMap(TechItem, Items(s)))
  }

  function PurpleSection(s: Section): string {
    PurpleWrap(Heading(s), ConcatMap(PurpleCard, Items(s)))
  }

  function MinimalSection(s: Section): string {
    PlainWrap(Heading(s), ConcatMap(MinimalEntry, Items(s)))
  }

  function NeonSection(s: Section): string {
    NeonWrap(Heading(s), ConcatMap(TechItem, Items(s)))
  }

  // ---------------------------------------------------------------- pages

  function TechParts(d: Resume, sectionsHtml: string): seq<string> {
    [
      ZhHead,
      "<title>" + Get(d.name, "") + "</title>",
      "\n",
      TechStyle,
      HeroBodyOpen,
      "<h1>" + Get(d.name, "") + "</h1>",
      "\n",
      "<p class=\"title\">" + Get(d.title, "") + "</p>",
      "\n",
      "<p class=\"bio\">" + Get(d.bio, "") + "</p>",
      "\n",
      ContactDiv,
      "\n",
      (if Truthy(d.email) then "<a href=\"mailto:" + d.email.value + "\">📧 Email</a>" else ""),
      "\n",
      (if Truthy(d.website) then "<a href=\"https://" + d.website.value + TechWebsiteTail else ""),
      "\n</div>\n</div>\n",
      sectionsHtml,
      PageFoot
    ]
  }

  /** `template_dark_tech(data)` */
  function TechPage(d: Resume): string {
    Join(TechParts(d, ConcatMap(TechSection, Sections(d))))
  }

  function PurpleParts(d: Resume, sectionsHtml: string): seq<string> {
    [
      ZhHead,
      "<title>" + Get(d.name, "") + "</title>",
      "\n",
      PurpleStyle,
      HeroBodyOpen,
      "<h1>" + Get(d.name, "") + "</h1>",
      "\n",
      "<p class=\"title\">" + Get(d.title, "") + "</p>",
      "\n",
      "<p class=\"bio\">" + Get(d.bio, "") + "</p>",
      "\n",
      ContactDiv,
      "\n",
      (if Truthy(d.email) then "<a href=\"mailto:" + d.email.value + "\">📧 " + d.email.value + "</a>" else ""),
      "\n",
      (if Truthy(d.website) then "<a href=\"https://" + d.website.value + "\" target=\"_blank\">🌐 " + d.website.value + "</a>" else ""),
      "\n</div>\n</div>\n",
      sectionsHtml,
      PageFoot
    ]
  }

  /** `template_gradient_purple(data)` */
  function PurplePage(d: Resume): string {
    Join(PurpleParts(d, ConcatMap(PurpleSection, Sections(d))))
  }

  function MinimalParts(d: Resume, sectionsHtml: string): seq<string> {
    [
      ZhHead,
      "<title>" + Get(d.name, "") + "</title>",
      "\n",
      MinimalStyle,
      PlainBodyOpen,
      "<h1>" + Get(d.name, "") + "</h1>",
      "\n",
      "<p class=\"title\">" + Get(d.title, "") + "</p>",
      "\n",
      ContactDiv,
      "\n",
      (if Truthy(d.email) then "<a href=\"mailto:" + d.email.value + "\">" + d.email.value + "</a>" else ""),
      "\n",
      (if Truthy(d.website) then "<a href=\"https://" + d.website.value + "\" target=\"_blank\">" + d.website.value + "</a>" else ""),
      "\n</div>\n",
      (if Truthy(d.bio) then "<p class=\"bio\">" + d.bio.value + "</p>" else ""),
      "\n",
      sectionsHtml,
      PageFoot
    ]
  }

  /** `template_academic_minimal(data)` */
  function MinimalPage(d: Resume): string {
    Join(MinimalParts(d, ConcatMap(MinimalSection, Sections(d))))
  }

  function NeonParts(d: Resume, sectionsHtml: string): seq<string> {
    [
      ZhHead,
      "<title>" + Get(d.name, "") + "</title>",
      "\n",
      NeonStyle,
      PlainBodyOpen,
      "<h1>" + Get(d.name, "") + "</h1>",
      "\n",
      "<p class=\"title\">" + Get(d.title, "") + "</p>",
      "\n",
      "<p class=\"bio\">" + Get(d.bio, "") + "</p>",
      "\n",
      ContactDiv,
      "\n",
      (if Truthy(d.email) then "<a href=\"mailto:" + d.email.value + "\">EMAIL</a>" else ""),
      "\n",
      (if Truthy(d.website) then "<a href=\"https://" + d.website.value + NeonWebsiteTail else ""),
      "\n</div>\n",
      sectionsHtml,
      PageFoot
    ]
  }

  /** `template_neon_cyber(data)` */
  function NeonPage(d: Resume): string {
    Join(NeonParts(d, ConcatMap(NeonSection, Sections(d))))
  }

  // ---------------------------------------------------------------- the loops

  /** The loops of `template_dark_tech`. */
  method RenderTech(d: Resume) returns (html: string)
    ensures html == TechPage(d)
  {
    var sections := Sections(d);
    var sectionsHtml := "";
    var i := 0;
    while i < |sections|
      invariant 0 <= i <= |sections|
      invariant sectionsHtml == ConcatMap(TechSection, sections[..i])
    {
      var title := Heading(sections[i]);
      var items := Items(sections[i]);
      var itemsHtml := "";
      var j := 0;
      while j < |items|
        invariant 0 <= j <= |items|
        invariant itemsHtml == ConcatMap(TechItem, items[..j])
      {
        ConcatMapSnoc(TechItem, items, j);
        itemsHtml := itemsHtml + TechItem(items[j]);
        j := j + 1;
      }
      assert items[..j] == items;
      ConcatMapSnoc(TechSection, sections, i);
      sectionsHtml := sectionsHtml + PlainWrap(title, itemsHtml);
      i := i + 1;
    }
    assert sections[..i] == sections;
    html := Join(TechParts(d, sectionsHtml));
  }

  /** The loops of `template_gradient_purple`. */
  method RenderPurple(d: Resume) returns (html: string)
    ensures html == PurplePage(d)
  {
    var sections := Sections(d);
    var sectionsHtml := "";
    var i := 0;
    while i < |sections|
      invariant 0 <= i <= |sections|
      invariant sectionsHtml == ConcatMap(PurpleSection, sections[..i])
    {
      var title := Heading(sections[i]);
      var items := Items(sections[i]);
      var itemsHtml := "";
      var j := 0;
      while j < |items|
        invariant 0 <= j <= |items|
        invariant itemsHtml == ConcatMap(PurpleCard, items[..j])
      {
        ConcatMapSnoc(PurpleCard, items, j);
        itemsHtml := itemsHtml + PurpleCard(items[j]);
        j := j + 1;
      }
      assert items[..j] == items;
      ConcatMapSnoc(PurpleSection, sections, i);
      sectionsHtml := sectionsHtml + PurpleWrap(title, itemsHtml);
      i := i + 1;
    }
    assert sections[..i] == sections;
    html := Join(PurpleParts(d, sectionsHtml));
  }

  /** The loops of `template_academic_minimal`. */
  method RenderMinimal(d: Resume) returns (html: string)
    ensures html == MinimalPage(d)
  {
    var sections := Sections(d);
    var sectionsHtml := "";
    var i := 0;
    while i < |sections|
      invariant 0 <= i <= |sections|
      invariant sectionsHtml == ConcatMap(MinimalSection, sections[..i])
    {
      var title := Heading(sections[i]);
      var items := Items(sections[i]);
      var itemsHtml := "";
      var j := 0;
      while j < |items|
        invariant 0 <= j <= |items|
        invariant itemsHtml == ConcatMap(MinimalEntry, items[..j])
      {
        ConcatMapSnoc(MinimalEntry, items, j);
        itemsHtml := itemsHtml + MinimalEntry(items[j]);
        j := j + 1;
      }
      assert items[..j] == items;
      ConcatMapSnoc(MinimalSection, sections, i);
      sectionsHtml := sectionsHtml + PlainWrap(title, itemsHtml);
      i := i + 1;
    }
    assert sections[..i] == sections;
    html := Join(MinimalParts(d, sectionsHtml));
  }

  /** The loops of `template_neon_cyber`. */
  method RenderNeon(d: Resume) returns (html: string)
    ensures html == NeonPage(d)
  {
    var sections := Sections(d);
    var sectionsHtml := "";
    var i := 0;
    while i < |sections|
      invariant 0 <= i <= |sections|
      invariant sectionsHtml == ConcatMap(NeonSection, sections[..i])
    {
      var title := Heading(sections[i]);
      var items := Items(sections[i]);
      var itemsHtml := "";
      var j := 0;
      while j < |items|
        invariant 0 <= j <= |items|
        invariant itemsHtml == ConcatMap(TechItem, items[..j])
      {
        ConcatMapSnoc(TechItem, items, j);
        itemsHtml := itemsHtml + TechItem(items[j]);
        j := j + 1;
      }
      assert items[..j] == items;
      ConcatMapSnoc(NeonSection, sections, i);
      sectionsHtml := sectionsHtml + NeonWrap(title, itemsHtml);
      i := i + 1;
    }
    assert sections[..i] == sections;
    html := Join(NeonParts(d, sectionsHtml));
  }

  // ---------------------------------------------------------------- properties

  /** A section's type is never read: every section function gives the same
      markup for any type. */
  lemma SectionTypeIgnored(s: Section, kind: Option<string>)
    ensures TechSection(s.(kind := kind)) == TechSection(s)
    ensures PurpleSection(s.(kind := kind)) == PurpleSection(s)
    ensures MinimalSection(s.(kind := kind)) == MinimalSection(s)
    ensures NeonSection(s.(kind := kind)) == NeonSection(s)
  {
  }

  /** No template reads the section type: changing every type, or dropping
      them all, leaves the dark tech page as it was. */
  lemma TechIgnoresType(d: Resume, kind: Option<string>)
    ensures TechPage(Retyped(d, kind)) == TechPage(d)
  {
    var e := Retyped(d, kind);
    forall k | 0 <= k < |Sections(d)| ensures TechSection(Sections(e)[k]) == TechSection(Sections(d)[k]) {
      SectionTypeIgnored(Sections(d)[k], kind);
    }
    ConcatMapPointwise(TechSection, Sections(e), TechSection, Sections(d));
  }

  /** No template reads the section type: changing every type, or dropping
      them all, leaves the gradient purple page as it was. */
  lemma PurpleIgnoresType(d: Resume, kind: Option<string>)
    ensures PurplePage(Retyped(d, kind)) == PurplePage(d)
  {
    var e := Retyped(d, kind);
    forall k | 0 <= k < |Sections(d)| ensures PurpleSection(Sections(e)[k]) == PurpleSection(Sections(d)[k]) {
      SectionTypeIgnored(Sections(d)[k], kind);
    }
    ConcatMapPointwise(PurpleSection, Sections(e), PurpleSection, Sections(d));
  }

  /** No template reads the section type: changing every type, or dropping
      them all, leaves the academic minimal page as it was. */
  lemma MinimalIgnoresType(d: Resume, kind: Option<string>)
    ensures MinimalPage(Retyped(d, kind)) == MinimalPage(d)
  {
    var e := Retyped(d, kind);
    forall k | 0 <= k < |Sections(d)| ensures MinimalSection(Sections(e)[k]) == MinimalSection(Sections(d)[k]) {
      SectionTypeIgnored(Sections(d)[k], kind);
    }
    ConcatMapPointwise(MinimalSection, Sections(e), MinimalSection, Sections(d));
  }

  /** No template reads the section type: changing every type, or dropping
      them all, leaves the neon cyber page as it was. */
  lemma NeonIgnoresType(d: Resume, kind: Option<string>)
    ensures NeonPage(Retyped(d, kind)) == NeonPage(d)
  {
    var e := Retyped(d, kind);
    forall k | 0 <= k < |Sections(d)| ensures NeonSection(Sections(e)[k]) == NeonSection(Sections(d)[k]) {
      SectionTypeIgnored(Sections(d)[k], kind);
    }
    ConcatMapPointwise(NeonSection, Sections(e), NeonSection, Sections(d));
  }

  /** The description paragraph is there when the description is truthy, and
      otherwise the item renders as if it had none; subtitle and date are always
      printed, "" when missing. */
  lemma TechItemFields(it: Item)
    ensures Truthy(it.description) ==> Contains(TechItem(it), "<p class=\"desc\">" + it.description.value + "</p>")
    ensures !Truthy(it.description) ==> TechItem(it) == TechItem(it.(description := None))
    ensures Contains(TechItem(it), "<p class=\"sub\">" + Get(it.subtitle, "") + "</p>")
    ensures Contains(TechItem(it), "<p class=\"date\">" + Get(it.date, "") + "</p>")
  {
    JoinContains(TechItemParts(it), 7);
    JoinContains(TechItemParts(it), 3);
    JoinContains(TechItemParts(it), 5);
    assert TechItemParts(it.(description := None)) == TechItemParts(it) || Truthy(it.description);
  }

  lemma PurpleCardFields(it: Item)
    ensures Truthy(it.description) ==> Contains(PurpleCard(it), "<p class=\"desc\">" + it.description.value + "</p>")
    ensures !Truthy(it.description) ==> PurpleCard(it) == PurpleCard(it.(description := None))
    ensures Contains(PurpleCard(it), "<p class=\"sub\">" + Get(it.subtitle, "") + "</p>")
    ensures Contains(PurpleCard(it), "<span class=\"date\">" + Get(it.date, "") + "</span>")
  {
    JoinContains(PurpleCardParts(it), 7);
    JoinContains(PurpleCardParts(it), 3);
    JoinContains(PurpleCardParts(it), 5);
    assert PurpleCardParts(it.(description := None)) == PurpleCardParts(it) || Truthy(it.description);
  }

  /** In the academic minimal entry the date column comes before the title. */
  lemma MinimalEntryFields(it: Item)
    ensures Truthy(it.description) ==> Contains(MinimalEntry(it), "<p class=\"desc\">" + it.description.value + "</p>")
    ensures !Truthy(it.description) ==> MinimalEntry(it) == MinimalEntry(it.(description := None))
    ensures Contains(MinimalEntry(it), "<p class=\"org\">" + Get(it.subtitle, "") + "</p>")
    ensures Precedes(MinimalEntry(it), "<span class=\"date\">" + Get(it.date, "") + "</span>", "<h3>" + Get(it.title, "") + "</h3>")
  {
    JoinContains(MinimalEntryParts(it), 7);
    JoinContains(MinimalEntryParts(it), 5);
    JoinPrecedes(MinimalEntryParts(it), 1, 3);
    assert MinimalEntryParts(it.(description := None)) == MinimalEntryParts(it) || Truthy(it.description);
  }

  /** Every neon section heading carries the "&gt; " prompt. */
  lemma NeonHeadingPrompt(s: Section)
    ensures Contains(NeonSection(s), "<h2>&gt; " + Heading(s) + "</h2>")
  {
    JoinContains(["<section>", "<h2>&gt; " + Heading(s) + "</h2>", ConcatMap(TechItem, Items(s)), "</section>"], 1);
  }

  /** Email and website links appear when the fields are truthy; the website
      link always goes to "https://" + the website. */
  lemma TechContactLinks(d: Resume)
    ensures Truthy(d.email) ==> Contains(TechPage(d), "<a href=\"mailto:" + d.email.value + "\">📧 Email</a>")
    ensures Truthy(d.website) ==> Contains(TechPage(d), "<a href=\"https://" + d.website.value + "\" target=\"_blank\">🌐 Website</a>")
  {
    var parts := TechParts(d, ConcatMap(TechSection, Sections(d)));
    JoinContains(parts, 13);
    JoinContains(parts, 15);
  }

  lemma PurpleContactLinks(d: Resume)
    ensures Truthy(d.email) ==> Contains(PurplePage(d), "<a href=\"mailto:" + d.email.value + "\">📧 " + d.email.value + "</a>")
    ensures Truthy(d.website) ==> Contains(PurplePage(d), "<a href=\"https://" + d.website.value + "\" target=\"_blank\">🌐 " + d.website.value + "</a>")
  {
    var parts := PurpleParts(d, ConcatMap(PurpleSection, Sections(d)));
    JoinContains(parts, 13);
    JoinContains(parts, 15);
  }

  lemma MinimalContactLinks(d: Resume)
    ensures Truthy(d.email) ==> Contains(MinimalPage(d), "<a href=\"mailto:" + d.email.value + "\">" + d.email.value + "</a>")
    ensures Truthy(d.website) ==> Contains(MinimalPage(d), "<a href=\"https://" + d.website.value + "\" target=\"_blank\">" + d.website.value + "</a>")
  {
    var parts := MinimalParts(d, ConcatMap(MinimalSection, Sections(d)));
    JoinContains(parts, 11);
    JoinContains(parts, 13);
  }

  lemma NeonContactLinks(d: Resume)
    ensures Truthy(d.email) ==> Contains(NeonPage(d), "<a href=\"mailto:" + d.email.value + "\">EMAIL</a>")
    ensures Truthy(d.website) ==> Contains(NeonPage(d), "<a href=\"https://" + d.website.value + "\" target=\"_blank\">WEBSITE</a>")
  {
    var parts := NeonParts(d, ConcatMap(NeonSection, Sections(d)));
    JoinContains(parts, 13);
    JoinContains(parts, 15);
  }

  /** Absent and empty email and website give the same page: both links are left out. */
  lemma ContactOmitted(d: Resume)
    ensures TechPage(d.(email := Some(""), website := Some(""))) == TechPage(d.(email := None, website := None))
    ensures NeonPage(d.(email := Some(""), website := Some(""))) == NeonPage(d.(email := None, website := None))
    ensures PurplePage(d.(email := Some(""), website := Some(""))) == PurplePage(d.(email := None, website := None))
    ensures MinimalPage(d.(email := Some(""), website := Some(""))) == MinimalPage(d.(email := None, website := None))
  {
    var tech := ConcatMap(TechSection, Sections(d));
    assert TechParts(d.(email := Some(""), website := Some("")), tech) == TechParts(d.(email := None, website := None), tech);
    var neon := ConcatMap(NeonSection, Sections(d));
    assert NeonParts(d.(email := Some(""), website := Some("")), neon) == NeonParts(d.(email := None, website := None), neon);
    var purple := ConcatMap(PurpleSection, Sections(d));
    assert PurpleParts(d.(email := Some(""), website := Some("")), purple) == PurpleParts(d.(email := None, website := None), purple);
    var minimal := ConcatMap(MinimalSection, Sections(d));
    assert MinimalParts(d.(email := Some(""), website := Some("")), minimal) == MinimalParts(d.(email := None, website := None), minimal);
  }

  /** The academic minimal page puts the bio after the contact block. */
  lemma MinimalBioAfterContact(d: Resume)
    requires Truthy(d.bio)
    ensures Precedes(MinimalPage(d), ContactDiv, "<p class=\"bio\">" + d.bio.value + "</p>")
  {
    JoinPrecedes(MinimalParts(d, ConcatMap(MinimalSection, Sections(d))), 9, 15);
  }

  /** Sections are rendered in input order, in every template. */
  lemma SectionsInOrder(d: Resume, i: nat, j: nat)
    requires i < j < |Sections(d)|
    ensures Precedes(TechPage(d), TechSection(Sections(d)[i]), TechSection(Sections(d)[j]))
    ensures Precedes(NeonPage(d), NeonSection(Sections(d)[i]), NeonSection(Sections(d)[j]))
  {
    var ss := Sections(d);
    var tech := ConcatMap(TechSection, ss);
    ConcatMapPrecedes(TechSection, ss, i, j);
    JoinContains(TechParts(d, tech), 17);
    PrecedesInside(TechPage(d), tech, TechSection(ss[i]), TechSection(ss[j]));
    var neon := ConcatMap(NeonSection, ss);
    ConcatMapPrecedes(NeonSection, ss, i, j);
    JoinContains(NeonParts(d, neon), 17);
    PrecedesInside(NeonPage(d), neon, NeonSection(ss[i]), NeonSection(ss[j]));
  }

  lemma SectionsInOrderPurpleMinimal(d: Resume, i: nat, j: nat)
    requires i < j < |Sections(d)|
    ensures Precedes(PurplePage(d), PurpleSection(Sections(d)[i]), PurpleSection(Sections(d)[j]))
    ensures Precedes(MinimalPage(d), MinimalSection(Sections(d)[i]), MinimalSection(Sections(d)[j]))
  {
    var ss := Sections(d);
    var purple := ConcatMap(PurpleSection, ss);
    ConcatMapPrecedes(PurpleSection, ss, i, j);
    JoinContains(PurpleParts(d, purple), 17);
    PrecedesInside(PurplePage(d), purple, PurpleSection(ss[i]), PurpleSection(ss[j]));
    var minimal := ConcatMap(MinimalSection, ss);
    ConcatMapPrecedes(MinimalSection, ss, i, j);
    JoinContains(MinimalParts(d, minimal), 17);
    PrecedesInside(MinimalPage(d), minimal, MinimalSection(ss[i]), MinimalSection(ss[j]));
  }

  // ---------------------------------------------------------------- TEMPLATES and README

  /** `TEMPLATES`: dropdown label, description and template function, in insertion order. */
  const Templates: seq<(string, string, Resume -> string)> := [
    ("🌙 深色科技風", "深色背景 + 科技藍 + 簡潔現代", TechPage),
    ("🌈 紫色漸變風", "紫色漸變 + 玻璃態 + 卡片布局", PurplePage),
    ("📖 極簡學術風", "白色背景 + 經典學術 + 專業簡潔", MinimalPage),
    ("💚 霓虹賽博風", "黑底霓虹 + 賽博朋克 + 極客風格", NeonPage)
  ]

  /** `TEMPLATES[choice]`, None where Python raises KeyError. */
  function Lookup(table: seq<(string, string, Resume -> string)>, choice: string): (r: Option<(string, Resume -> string)>)
    ensures r.None? <==> forall k :: 0 <= k < |table| ==> table[k].0 != choice
    ensures r.Some? ==> exists k :: 0 <= k < |table| && table[k].0 == choice && r.value == (table[k].1, table[k].2)
  {
    if |table| == 0 then None
    else if table[0].0 == choice then Some((table[0].1, table[0].2))
    else
      var r := Lookup(table[1..], choice);
      assert forall k :: 1 <= k < |table| ==> table[k] == table[1..][k - 1];
      r
  }

  /** `update_info(choice)`: the chosen template's description in bold. */
  function UpdateInfo(choice: string): (r: Option<string>) {
    match Lookup(Templates, choice)
    case None => None
    case Some(entry) => Some("**" + entry.0 + "**")
  }

  /** The four labels are different, so each one selects its own entry. */
  lemma TemplatesDistinct()
    ensures |Templates| == 4
    ensures forall m, n :: 0 <= m < n < |Templates| ==> Templates[m].0 != Templates[n].0
  {
    forall m, n | 0 <= m < n < |Templates| ensures Templates[m].0 != Templates[n].0 {
      assert Templates[0].0[0] == '🌙' && Templates[1].0[0] == '🌈' && Templates[2].0[0] == '📖' && Templates[3].0[0] == '💚';
    }
  }

  /** With distinct labels, a label selects exactly its own entry. */
  lemma {:induction false} LookupFinds(table: seq<(string, string, Resume -> string)>, k: nat)
    requires k < |table|
    requires forall m, n :: 0 <= m < n < |table| ==> table[m].0 != table[n].0
    ensures Lookup(table, table[k].0) == Some((table[k].1, table[k].2))
  {
    if k > 0 {
      assert table[0].0 != table[k].0;
      assert table[k] == table[1..][k - 1];
      LookupFinds(table[1..], k - 1);
    }
  }

  /** Every dropdown label shows its own description; any other text has none. */
  lemma UpdateInfoShows(k: nat)
    requires k < |Templates|
    ensures UpdateInfo(Templates[k].0) == Some("**" + Templates[k].1 + "**")
  {
    TemplatesDistinct();
    LookupFinds(Templates, k);
  }

  lemma UpdateInfoUnknown(choice: string)
    requires forall k :: 0 <= k < |Templates| ==> Templates[k].0 != choice
    ensures UpdateInfo(choice) == None
  {
  }

  const ReadmeTail: string := " Homepage\n\n" + "## 部署到 GitHub Pages\n" + "1. 上傳到 GitHub 倉庫\n" + "2. Settings → Pages → Source: main\n" + "3. 訪問 https://username.github.io/repo\n"

  /** The README written by `generate_project`. */
  function Readme(d: Resume): (r: string)
    ensures StartsWith(r, "# " + Get(d.name, "") + " Homepage")
  {
    var r := "# " + Get(d.name, "") + ReadmeTail;
    assert r[..|"# " + Get(d.name, "") + " Homepage"|] == "# " + Get(d.name, "") + " Homepage";
    r
  }
}
