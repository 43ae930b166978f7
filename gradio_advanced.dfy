/** gradio_advanced_app.py: `generate_advanced_template` (the bilingual
    animated page, including its `bilingual_data` dictionary) and the README
    text of `generate_github_pages_project` with its suggested repository name.
    Every section is rendered as a timeline whatever its type; section `i`
    carries the anchor `section-i` and its items the animation delay `i*100`.
    The `<style>` and `<script>` blocks are stood in for by constants. */
module GradioAdvanced {
  import opened Base
  import opened ResumeData
  import opened Text

  const AdvStyle: string := "<style>/* glass cards, timeline rail, language switch, ripple animation */</style>"
  const AdvScript: string := "<script>/* particles, floating hero, typewriter, language switch, click ripples */</script>"

  const AdvHead: string := "<!DOCTYPE html>\n" + "<html lang=\"zh-CN\">\n" + "<head>\n" + "    <meta charset=\"UTF-8\">\n" + "    <meta name=\"viewport\" content=\"width=device-width, initial-scale=1.0\">\n" + "    "
  const AdvChrome: string := "\n" + "</head>\n" + "<body>\n" + "    <!-- 粒子背景 -->\n" + "    <canvas id=\"particles-canvas\"></canvas>\n" + "    \n" + "    <!-- 語言切換 -->\n" + "    <div class=\"lang-switch\">\n" + "        <button class=\"lang-btn active\" data-lang=\"zh\">中文</button>\n" + "        <button class=\"lang-btn\" data-lang=\"en\">English</button>\n" + "    </div>\n" + "    \n" + "    <!-- 主內容 -->\n" + "    <div class=\"container\">\n" + "        <!-- Hero -->\n" + "        <div class=\"hero\">\n" + "            "
  const ButtonsOpen: string := "\n" + "            <div class=\"contact-buttons\">\n" + "                "
  const HeroClose: string := "\n" + "            </div>\n" + "        </div>\n" + "        \n" + "        <!-- Sections -->\n" + "        "
  const ContainerClose: string := "\n" + "    </div>\n" + "    \n" + "    "
  const AdvFoot: string := "\n" + "</body>\n" + "</html>"
  const ItemOpen: string := "\n" + "            <div class=\"timeline-item\" data-aos=\"fade-up\" "
  const ContentOpen: string := ">\n" + "                <div class=\"item-content\">\n" + "                    "
  const ItemClose: string := "\n" + "                </div>\n" + "            </div>\n" + "            "
  const SectionOpen: string := "\n" + "        <section class=\"section\" "
  const TimelineOpen: string := "\n" + "            <div class=\"timeline\">\n" + "                "
  const SectionClose: string := "\n" + "            </div>\n" + "        </section>\n" + "        "
  const MailOpen: string := "<a href=\"mailto:"
  const EmailButtonTail: string := "\" class=\"btn btn-primary\">📧 Email</a>"
  const SiteOpen: string := "<a href=\"https://"
  const SiteButtonTail: string := "\" target=\"_blank\" class=\"btn btn-primary\">🌐 Website</a>"
  const TypewriterOpen: string := "<div class=\"typewriter\" id=\"title\">"
  const BioOpen: string := "<p class=\"bio\" id=\"bio\">"
  const H3Open: string := "<h3 class=\"item-title\" data-lang-zh=\""
  const H2Open: string := "<h2 class=\"section-title\" data-aos=\"fade-right\" data-lang-zh=\""
  const LangEn: string := "\" data-lang-en=\""
  const SubtitleOpen: string := "<p class=\"item-subtitle\">"
  const DateOpen: string := "<p class=\"item-date\">"
  const DescOpen: string := "<p class=\"item-description\">"
  const Indent12: string := "\n            "
  const Indent16: string := "\n                "
  const Indent20: string := "\n                    "

  // ---------------------------------------------------------------- bilingual_data

  /** One language's entry of `bilingual_data`. */
  datatype Lang = Lang(name: string, title: string, email: string, website: string, bio: string, sections: seq<Section>)

  datatype Bilingual = Bilingual(zh: Lang, en: Lang)

  /** `data.get('title', '') or 'Researcher'`: the title shown on the page. */
  function DisplayTitle(d: Resume): string {
    if Truthy(d.title) then d.title.value else "Researcher"
  }

  /** `bilingual_data`; the page itself never reads it. */
  function BilingualData(d: Resume): Bilingual {
    var zh := Lang(Get(d.name, ""), Get(d.title, ""), Get(d.email, ""), Get(d.website, ""), Get(d.bio, ""), Sections(d));
    Bilingual(zh, zh.(title := DisplayTitle(d)))
  }

  /** The Chinese entry keeps the raw title; the English one falls back to
      "Researcher" when the title is missing or empty; the rest is shared. */
  lemma BilingualTitles(d: Resume)
    ensures BilingualData(d).zh.title == Get(d.title, "")
    ensures Truthy(d.title) ==> BilingualData(d).en.title == d.title.value
    ensures !Truthy(d.title) ==> BilingualData(d).en.title == "Researcher"
    ensures BilingualData(d).en.title != ""
    ensures BilingualData(d).en == BilingualData(d).zh.(title := BilingualData(d).en.title)
  {
  }

  // ---------------------------------------------------------------- items and sections

  /** The animation delay attribute of every item of section `i`. */
  function Delay(i: nat): string {
    "data-aos-delay=\"" + NatToDecimal(i * 100) + "\""
  }

  /** The anchor attribute of section `i`. */
  function Anchor(i: nat): string {
    "id=\"section-" + NatToDecimal(i) + "\""
  }

  function AdvItemParts(i: nat, it: Item): seq<string> {
    var t := Get(it.title, "");
    [
      ItemOpen,
      Delay(i),
      ContentOpen,
      H3Open + t + LangEn + t + "\">" + t + "</h3>",
      Indent20,
      SubtitleOpen + Get(it.subtitle, "") + "</p>",
      Indent20,
      DateOpen + Get(it.date, "") + "</p>",
      Indent20,
      (if Truthy(it.description) then DescOpen + it.description.value + "</p>" else ""),
      ItemClose
    ]
  }

  /** One timeline item of section `i`. */
  function AdvItem(i: nat, it: Item): string {
    Join(AdvItemParts(i, it))
  }

  /** The item renderer of section `i`. */
  function ItemsOf(i: nat): Item -> string {
    (it: Item) => AdvItem(i, it)
  }

  function AdvWrapParts(i: nat, title: string, itemsHtml: string): seq<string> {
    [
      SectionOpen,
      Anchor(i),
      ">" + Indent12,
      H2Open + title + LangEn + title + "\">" + title + "</h2>",
      TimelineOpen,
      itemsHtml,
      SectionClose
    ]
  }

  function AdvWrap(i: nat, title: string, itemsHtml: string): string {
    Join(AdvWrapParts(i, title, itemsHtml))
  }

  /** `enumerate(xs)` */
  function Enumerate<T>(xs: seq<T>): (r: seq<(nat, T)>)
    ensures |r| == |xs|
    ensures forall k :: 0 <= k < |xs| ==> r[k] == (k, xs[k])
  {
    seq(|xs|, k requires 0 <= k < |xs| => (k as nat, xs[k]))
  }

  /** Section `i` of the enumeration; its type is read but not used. */
  function AdvSection(p: (nat, Section)): string {
    AdvWrap(p.0, Heading(p.1), ConcatMap(ItemsOf(p.0), Items(p.1)))
  }

  // ---------------------------------------------------------------- the page

  function AdvParts(d: Resume, sectionsHtml: string): seq<string> {
    [
      AdvHead,
      "<title>" + Get(d.name, "Academic Homepage") + "</title>",
      "\n    ",
      AdvStyle,
      AdvChrome,
      "<h1 id=\"name\">" + Get(d.name, "") + "</h1>",
      Indent12,
      TypewriterOpen + DisplayTitle(d) + "</div>",
      Indent12,
      BioOpen + Get(d.bio, "") + "</p>",
      ButtonsOpen,
      (if Truthy(d.email) then MailOpen + d.email.value + EmailButtonTail else ""),
      Indent16,
      (if Truthy(d.website) then SiteOpen + d.website.value + SiteButtonTail else ""),
      HeroClose,
      sectionsHtml,
      ContainerClose,
      AdvScript,
      AdvFoot
    ]
  }

  /** `generate_advanced_template(data)` */
  function AdvPage(d: Resume): string {
    Join(AdvParts(d, ConcatMap(AdvSection, Enumerate(Sections(d)))))
  }

  /** The loops of `generate_advanced_template`. */
  method GenerateAdvanced(d: Resume) returns (html: string)
    ensures html == AdvPage(d)
  {
    var sections := Sections(d);
    ghost var pairs := Enumerate(sections);
    var sectionsHtml := "";
    var i := 0;
    while i < |sections|
      invariant 0 <= i <= |sections|
      invariant sectionsHtml == ConcatMap(AdvSection, pairs[..i])
    {
      var section := sections[i];
      var sectionType := Kind(section);
      var title := Heading(section);
      var items := Items(section);
      var itemsHtml := "";
      var j := 0;
      while j < |items|
        invariant 0 <= j <= |items|
        invariant itemsHtml == ConcatMap(ItemsOf(i), items[..j])
      {
        ConcatMapSnoc(ItemsOf(i), items, j);
        itemsHtml := itemsHtml + AdvItem(i, items[j]);
        j := j + 1;
      }
      assert items[..j] == items;
      ConcatMapSnoc(AdvSection, pairs, i);
      sectionsHtml := sectionsHtml + AdvWrap(i, title, itemsHtml);
      i := i + 1;
    }
    assert pairs[..i] == pairs;
    html := Join(AdvParts(d, sectionsHtml));
  }

  // ---------------------------------------------------------------- properties

  /** The section type is never read: the page is the same for any types. */
  lemma AdvIgnoresType(d: Resume, kind: Option<string>)
    ensures AdvPage(Retyped(d, kind)) == AdvPage(d)
  {
    var e := Retyped(d, kind);
    var xs, ys := Enumerate(Sections(e)), Enumerate(Sections(d));
    forall k | 0 <= k < |xs| ensures AdvSection(xs[k]) == AdvSection(ys[k]) {
      assert Sections(e)[k] == Sections(d)[k].(kind := kind);
    }
    ConcatMapPointwise(AdvSection, xs, AdvSection, ys);
  }

  /** Section `i` holds its anchor and, in order, each of its items rendered
      with the delay of section `i`. */
  lemma SectionAnchored(d: Resume, i: nat)
    requires i < |Sections(d)|
    ensures Contains(AdvPage(d), Anchor(i))
    ensures Contains(AdvPage(d), ConcatMap(ItemsOf(i), Items(Sections(d)[i])))
  {
    var pairs := Enumerate(Sections(d));
    var all := ConcatMap(AdvSection, pairs);
    var sec := AdvSection(pairs[i]);
    var itemsHtml := ConcatMap(ItemsOf(i), Items(Sections(d)[i]));
    ConcatMapContains(AdvSection, pairs, i);
    JoinContains(AdvParts(d, all), 15);
    ContainsTrans(AdvPage(d), all, sec);
    JoinContains(AdvWrapParts(i, Heading(Sections(d)[i]), itemsHtml), 1);
    JoinContains(AdvWrapParts(i, Heading(Sections(d)[i]), itemsHtml), 5);
    ContainsTrans(AdvPage(d), sec, Anchor(i));
    ContainsTrans(AdvPage(d), sec, itemsHtml);
  }

  /** Every item carries the delay `i*100` of its section, and the description
      paragraph appears exactly when the description is truthy. */
  lemma AdvItemFields(i: nat, it: Item)
    ensures Contains(AdvItem(i, it), Delay(i))
    ensures Truthy(it.description) ==> Contains(AdvItem(i, it), DescOpen + it.description.value + "</p>")
    ensures !Truthy(it.description) ==> AdvItem(i, it) == AdvItem(i, it.(description := None))
    ensures Contains(AdvItem(i, it), SubtitleOpen + Get(it.subtitle, "") + "</p>")
    ensures Contains(AdvItem(i, it), DateOpen + Get(it.date, "") + "</p>")
  {
    JoinContains(AdvItemParts(i, it), 1);
    JoinContains(AdvItemParts(i, it), 9);
    JoinContains(AdvItemParts(i, it), 5);
    JoinContains(AdvItemParts(i, it), 7);
    assert AdvItemParts(i, it.(description := None)) == AdvItemParts(i, it) || Truthy(it.description);
  }

  /** Different sections get different anchors and different delays. */
  lemma AnchorsDistinct(i: nat, j: nat)
    requires i != j
    ensures Anchor(i) != Anchor(j)
    ensures Delay(i) != Delay(j)
  {
    var a, b := NatToDecimal(i), NatToDecimal(j);
    if Anchor(i) == Anchor(j) {
      var n := |"id=\"section-"|;
      assert a == Anchor(i)[n..|Anchor(i)| - 1];
      assert b == Anchor(j)[n..|Anchor(j)| - 1];
      DecimalInjective(i, j);
    }
    var c, e := NatToDecimal(i * 100), NatToDecimal(j * 100);
    if Delay(i) == Delay(j) {
      var n := |"data-aos-delay=\""|;
      assert c == Delay(i)[n..|Delay(i)| - 1];
      assert e == Delay(j)[n..|Delay(j)| - 1];
      DecimalInjective(i * 100, j * 100);
    }
  }

  /** The typewriter line shows the English title of `bilingual_data`; the
      `<title>` falls back to "Academic Homepage" only when the name is absent. */
  lemma AdvHeader(d: Resume)
    ensures Contains(AdvPage(d), TypewriterOpen + BilingualData(d).en.title + "</div>")
    ensures d.name.None? ==> Contains(AdvPage(d), "<title>" + "Academic Homepage" + "</title>")
    ensures d.name.Some? ==> Contains(AdvPage(d), "<title>" + d.name.value + "</title>")
  {
    var parts := AdvParts(d, ConcatMap(AdvSection, Enumerate(Sections(d))));
    JoinContains(parts, 7);
    JoinContains(parts, 1);
  }

  /** The email and website buttons appear when the fields are truthy; the
      website button links to "https://" + the website. */
  lemma AdvContactButtons(d: Resume)
    ensures Truthy(d.email) ==> Contains(AdvPage(d), MailOpen + d.email.value + EmailButtonTail)
    ensures Truthy(d.website) ==> Contains(AdvPage(d), SiteOpen + d.website.value + SiteButtonTail)
  {
    var parts := AdvParts(d, ConcatMap(AdvSection, Enumerate(Sections(d))));
    JoinContains(parts, 11);
    JoinContains(parts, 13);
  }

  /** An empty email or website is treated as absent: no button. */
  lemma AdvEmptyAsAbsent(d: Resume)
    ensures AdvPage(d.(email := Some(""), website := Some(""))) == AdvPage(d.(email := None, website := None))
  {
    var all := ConcatMap(AdvSection, Enumerate(Sections(d)));
    assert AdvParts(d.(email := Some(""), website := Some("")), all) == AdvParts(d.(email := None, website := None), all);
  }

  /** Sections appear in input order. */
  lemma AdvSectionsInOrder(d: Resume, i: nat, j: nat)
    requires i < j < |Sections(d)|
    ensures Precedes(AdvPage(d), Anchor(i), Anchor(j))
  {
    var pairs := Enumerate(Sections(d));
    var all := ConcatMap(AdvSection, pairs);
    var si, sj := AdvSection(pairs[i]), AdvSection(pairs[j]);
    ConcatMapPrecedes(AdvSection, pairs, i, j);
    JoinContains(AdvParts(d, all), 15);
    PrecedesInside(AdvPage(d), all, si, sj);
    JoinContains(AdvWrapParts(i, Heading(Sections(d)[i]), ConcatMap(ItemsOf(i), Items(Sections(d)[i]))), 1);
    JoinContains(AdvWrapParts(j, Heading(Sections(d)[j]), ConcatMap(ItemsOf(j), Items(Sections(d)[j]))), 1);
    PrecedesWithin(AdvPage(d), si, sj, Anchor(i), Anchor(j));
  }

  // ---------------------------------------------------------------- README

  /** The suggested repository name: `data.get('name', 'username')` with its
      spaces removed, lower-cased. */
  function RepoName(d: Resume): string {
    Lower(RemoveSpaces(Get(d.name, "username")))
  }

  /** The repository name has no spaces and no capitals, and is no longer than the name. */
  lemma RepoNameShape(d: Resume)
    ensures |RepoName(d)| <= |Get(d.name, "username")|
    ensures forall k :: 0 <= k < |RepoName(d)| ==> RepoName(d)[k] != ' ' && !('A' <= RepoName(d)[k] <= 'Z')
  {
    var r := RemoveSpaces(Get(d.name, "username"));
    assert forall k :: 0 <= k < |r| ==> RepoName(d)[k] == LowerChar(r[k]);
  }

  /** A name that is already a repository name is kept as it is, so deriving twice changes nothing. */
  lemma RepoNameFixes(d: Resume)
    ensures RepoName(d.(name := Some(RepoName(d)))) == RepoName(d)
    ensures d.name.None? ==> RepoName(d) == "username"
  {
    var r := RepoName(d);
    RepoNameShape(d);
    RemoveSpacesKeepsOthers(r);
    assert Lower(r) == r;
    if d.name.None? {
      var u := "username";
      RemoveSpacesKeepsOthers(u);
      assert forall k :: 0 <= k < |u| ==> LowerChar(u[k]) == u[k];
      assert Lower(u) == u;
    }
  }

  const ReadmeIntro: string := "\n" + "\n" + "## 🚀 部署到 GitHub Pages\n" + "\n" + "### 方法 1：直接上傳\n" + "1. 創建新倉庫（例如："
  const ReadmeBody: string := "\n" + "2. 上傳所有文件\n" + "3. Settings → Pages → Source: main branch\n" + "4. 訪問 `https://username.github.io`\n" + "\n" + "### 方法 2：Git 命令\n" + "```bash\n" + "git init\n" + "git add .\n" + "git commit -m \"Initial commit\"\n" + "git remote add origin https://github.com/username/repo.git\n" + "git push -u origin main\n" + "```\n" + "\n" + "## ✨ 功能特性\n" + "\n" + "- 🌍 中英文切換\n" + "- 🎨 炫酷動畫效果\n" + "- ✨ 點擊特效\n" + "- 📱 完全響應式\n" + "\n" + "Made with ❤️\n"

  function ReadmeParts(d: Resume): seq<string> {
    [
      "# " + Get(d.name, "Academic") + " Homepage",
      ReadmeIntro,
      "`" + RepoName(d) + ".github.io`",
      "）",
      ReadmeBody
    ]
  }

  /** The README of `generate_github_pages_project`. */
  function AdvReadme(d: Resume): string {
    Join(ReadmeParts(d))
  }

  /** The README opens with the heading (name, or "Academic" when absent) and
      suggests the repository `<repo name>.github.io`. */
  lemma AdvReadmeShape(d: Resume)
    ensures StartsWith(AdvReadme(d), "# " + Get(d.name, "Academic") + " Homepage")
    ensures Contains(AdvReadme(d), "`" + RepoName(d) + ".github.io`")
  {
    var parts := ReadmeParts(d);
    JoinContains(parts, 2);
    JoinPrefix(parts);
  }
}
