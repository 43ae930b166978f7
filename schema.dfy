/** lib/schema.ts: the zod schemas of the academic profile, as typed datatypes,
    the validation that `schema.parse` performs on a JSON value, and the JSON
    form of a typed value. zod objects drop keys they do not know; an absent
    optional key gives None, while a present key of the wrong type (including
    null) fails. The `.url()` and `.email()` format checks are zod internals and
    are given as the predicates of a `Formats` value. */
module Schema {
  import opened Base

  /** A JSON value as `JSON.parse` produces it. */
  datatype Json = JNull | JBool(b: bool) | JNum(n: real) | JStr(s: string) | JArr(elems: seq<Json>) | JObj(fields: map<string, Json>)

  /** zod's `.url()` and `.email()` string checks. */
  datatype Formats = Formats(isUrl: string -> bool, isEmail: string -> bool)

  // ---------------------------------------------------------------- shapes

  /** `socialLinkSchema` */
  datatype SocialLink = SocialLink(platform: string, url: string, username: Option<string>)

  /** `sectionItemSchema`: only the title is required. */
  datatype SectionItem = SectionItem(
    id: Option<string>,
    title: string,
    subtitle: Option<string>,
    date: Option<string>,
    description: Option<string>,
    tags: Option<seq<string>>,
    link: Option<string>,
    image: Option<string>,
    metadata: Option<map<string, string>>)

  /** `sectionTypeSchema` */
  datatype SectionType = Timeline | GridList | TextContent | Gallery

  /** `sectionSchema`: `type` is called `kind` here. */
  datatype Section = Section(id: string, kind: SectionType, title: string, items: seq<SectionItem>, order: Option<real>)

  datatype ThemeStyle = Bento | Minimal | Cyber | Academic

  datatype ThemeLayout = SingleColumn | Sidebar | Split

  /** `themeConfigSchema` */
  datatype ThemeConfig = ThemeConfig(style: ThemeStyle, accentColor: Option<string>, font: Option<string>, layout: Option<ThemeLayout>)

  /** The `basics` object of `profileSchema`; `role` is its `label` field
      (the professional title). */
  datatype Basics = Basics(
    name: string,
    role: string,
    bio: string,
    avatar: Option<string>,
    email: string,
    website: Option<string>,
    socials: Option<seq<SocialLink>>)

  /** `profileSchema` */
  datatype Profile = Profile(basics: Basics, sections: seq<Section>, theme: Option<ThemeConfig>)

  // ---------------------------------------------------------------- enumerations

  function TypeName(t: SectionType): string {
    match t
    case Timeline => "timeline"
    case GridList => "grid-list"
    case TextContent => "text-content"
    case Gallery => "gallery"
  }

  /** `sectionTypeSchema.parse` on a string. */
  function ParseType(s: string): (r: Option<SectionType>)
    ensures r.Some? ==> TypeName(r.value) == s
  {
    if s == "timeline" then Some(Timeline)
    else if s == "grid-list" then Some(GridList)
    else if s == "text-content" then Some(TextContent)
    else if s == "gallery" then Some(Gallery)
    else None
  }

  /** A section type is exactly one of the four names, and each name its own type. */
  lemma SectionTypeNames(s: string, t: SectionType)
    ensures ParseType(s).Some? <==> s in {"timeline", "grid-list", "text-content", "gallery"}
    ensures ParseType(TypeName(t)) == Some(t)
  {
  }

  lemma TypeNameInjective(t: SectionType, u: SectionType)
    requires TypeName(t) == TypeName(u)
    ensures t == u
  {
    assert ParseType(TypeName(t)) == Some(t);
  }

  function StyleName(s: ThemeStyle): string {
    match s
    case Bento => "bento"
    case Minimal => "minimal"
    case Cyber => "cyber"
    case Academic => "academic"
  }

  function ParseStyle(s: string): (r: Option<ThemeStyle>)
    ensures r.Some? ==> StyleName(r.value) == s
  {
    if s == "bento" then Some(Bento)
    else if s == "minimal" then Some(Minimal)
    else if s == "cyber" then Some(Cyber)
    else if s == "academic" then Some(Academic)
    else None
  }

  function LayoutName(l: ThemeLayout): string {
    match l
    case SingleColumn => "single-column"
    case Sidebar => "sidebar"
    case Split => "split"
  }

  function ParseLayout(s: string): (r: Option<ThemeLayout>)
    ensures r.Some? ==> LayoutName(r.value) == s
  {
    if s == "single-column" then Some(SingleColumn)
    else if s == "sidebar" then Some(Sidebar)
    else if s == "split" then Some(Split)
    else None
  }

  /** The style is one of four names and the layout one of three. */
  lemma ThemeNames(s: string, st: ThemeStyle, l: ThemeLayout)
    ensures ParseStyle(s).Some? <==> s in {"bento", "minimal", "cyber", "academic"}
    ensures ParseLayout(s).Some? <==> s in {"single-column", "sidebar", "split"}
    ensures ParseStyle(StyleName(st)) == Some(st)
    ensures ParseLayout(LayoutName(l)) == Some(l)
  {
  }

  // ---------------------------------------------------------------- field readers

  /** A required string field. */
  function ReqStr(o: map<string, Json>, key: string): (r: Option<string>)
    ensures r.Some? <==> key in o && o[key].JStr?
    ensures r.Some? ==> o[key] == JStr(r.value)
  {
    if key in o && o[key].JStr? then Some(o[key].s) else None
  }

  /** An optional field read with `read`: absent gives Some(None), present and
      accepted gives Some(Some(v)), present and refused fails. */
  function Opt<T>(o: map<string, Json>, key: string, read: Json -> Option<T>): (r: Option<Option<T>>)
    ensures key !in o ==> r == Some(None)
    ensures key in o ==> (r.Some? <==> read(o[key]).Some?)
    ensures key in o && r.Some? ==> r.value == Some(read(o[key]).value)
  {
    if key !in o then Some(None)
    else
      match read(o[key])
      case None => None
      case Some(v) => Some(Some(v))
  }

  function AsStr(j: Json): Option<string> {
    if j.JStr? then Some(j.s) else None
  }

  /** `z.string().url()` */
  function AsUrl(fmt: Formats, j: Json): Option<string> {
    if j.JStr? && fmt.isUrl(j.s) then Some(j.s) else None
  }

  function AsNum(j: Json): Option<real> {
    if j.JNum? then Some(j.n) else None
  }

  /** `z.array(element)`: every element must be accepted. */
  function ParseAll<T>(js: seq<Json>, read: Json -> Option<T>): (r: Option<seq<T>>)
    ensures r.Some? <==> forall k :: 0 <= k < |js| ==> read(js[k]).Some?
    ensures r.Some? ==> |r.value| == |js| && forall k :: 0 <= k < |js| ==> read(js[k]) == Some(r.value[k])
  {
    if js == [] then Some([])
    else
      var init := js[..|js| - 1];
      assert forall k :: 0 <= k < |init| ==> init[k] == js[k];
      match (ParseAll(init, read), read(js[|js| - 1]))
      case (Some(xs), Some(x)) => Some(xs + [x])
      case (_, _) => None
  }

  function AsArray<T>(read: Json -> Option<T>, j: Json): Option<seq<T>> {
    if j.JArr? then ParseAll(j.elems, read) else None
  }

  /** `z.record(z.string())`: an object whose values are all strings. */
  function AsRecord(j: Json): (r: Option<map<string, string>>)
    ensures r.Some? <==> j.JObj? && forall k :: k in j.fields ==> j.fields[k].JStr?
    ensures r.Some? ==> j.JObj? && r.value.Keys == j.fields.Keys && forall k :: k in r.value ==> j.fields[k] == JStr(r.value[k])
  {
    if j.JObj? && forall k :: k in j.fields ==> j.fields[k].JStr? then
      Some(map k | k in j.fields :: j.fields[k].s)
    else None
  }

  // ---------------------------------------------------------------- parsers

  function ParseSocial(fmt: Formats, j: Json): Option<SocialLink> {
    if !j.JObj? then None
    else
      var o := j.fields;
      var platform :- ReqStr(o, "platform");
      var url :- AsUrl(fmt, if "url" in o then o["url"] else JNull);
      var username :- Opt(o, "username", AsStr);
      Some(SocialLink(platform, url, username))
  }

  /** The text fields of an item: id, title, subtitle, date, description. */
  function ItemText(o: map<string, Json>): Option<(Option<string>, string, Option<string>, Option<string>, Option<string>)> {
    var id :- Opt(o, "id", AsStr);
    var title :- ReqStr(o, "title");
    var subtitle :- Opt(o, "subtitle", AsStr);
    var date :- Opt(o, "date", AsStr);
    var description :- Opt(o, "description", AsStr);
    Some((id, title, subtitle, date, description))
  }

  /** The other fields of an item: tags, link, image, metadata. */
  function ItemExtras(fmt: Formats, o: map<string, Json>): Option<(Option<seq<string>>, Option<string>, Option<string>, Option<map<string, string>>)> {
    var tags :- Opt(o, "tags", j => AsArray(AsStr, j));
    var link :- Opt(o, "link", j => AsUrl(fmt, j));
    var image :- Opt(o, "image", j => AsUrl(fmt, j));
    var metadata :- Opt(o, "metadata", AsRecord);
    Some((tags, link, image, metadata))
  }

  function ParseItem(fmt: Formats, j: Json): Option<SectionItem> {
    if !j.JObj? then None
    else
      var t :- ItemText(j.fields);
      var x :- ItemExtras(fmt, j.fields);
      Some(SectionItem(t.0, t.1, t.2, t.3, t.4, x.0, x.1, x.2, x.3))
  }

  function AsType(j: Json): Option<SectionType> {
    if j.JStr? then ParseType(j.s) else None
  }

  function ParseSection(fmt: Formats, j: Json): Option<Section> {
    if !j.JObj? then None
    else
      var o := j.fields;
      var id :- ReqStr(o, "id");
      var kind :- AsType(if "type" in o then o["type"] else JNull);
      var title :- ReqStr(o, "title");
      var items :- AsArray(j => ParseItem(fmt, j), if "items" in o then o["items"] else JNull);
      var order :- Opt(o, "order", AsNum);
      Some(Section(id, kind, title, items, order))
  }

  function AsStyle(j: Json): Option<ThemeStyle> {
    if j.JStr? then ParseStyle(j.s) else None
  }

  function AsLayout(j: Json): Option<ThemeLayout> {
    if j.JStr? then ParseLayout(j.s) else None
  }

  function ParseTheme(j: Json): Option<ThemeConfig> {
    if !j.JObj? then None
    else
      var o := j.fields;
      var style :- AsStyle(if "style" in o then o["style"] else JNull);
      var accentColor :- Opt(o, "accentColor", AsStr);
      var font :- Opt(o, "font", AsStr);
      var layout :- Opt(o, "layout", AsLayout);
      Some(ThemeConfig(style, accentColor, font, layout))
  }

  function AsEmail(fmt: Formats, j: Json): Option<string> {
    if j.JStr? && fmt.isEmail(j.s) then Some(j.s) else None
  }

  /** The required fields of `basics`: name, label, bio and email. */
  function BasicsText(fmt: Formats, o: map<string, Json>): Option<(string, string, string, string)> {
    var name :- ReqStr(o, "name");
    var role :- ReqStr(o, "label");
    var bio :- ReqStr(o, "bio");
    var email :- AsEmail(fmt, if "email" in o then o["email"] else JNull);
    Some((name, role, bio, email))
  }

  /** The optional fields of `basics`: avatar, website and socials. */
  function BasicsLinks(fmt: Formats, o: map<string, Json>): Option<(Option<string>, Option<string>, Option<seq<SocialLink>>)> {
    var avatar :- Opt(o, "avatar", j => AsUrl(fmt, j));
    var website :- Opt(o, "website", j => AsUrl(fmt, j));
    var socials :- Opt(o, "socials", j => AsArray(j => ParseSocial(fmt, j), j));
    Some((avatar, website, socials))
  }

  function ParseBasics(fmt: Formats, j: Json): Option<Basics> {
    if !j.JObj? then None
    else
      var t :- BasicsText(fmt, j.fields);
      var l :- BasicsLinks(fmt, j.fields);
      Some(Basics(t.0, t.1, t.2, l.0, t.3, l.1, l.2))
  }

  /** `profileSchema.parse(value)`, None where zod throws. */
  function ParseProfile(fmt: Formats, j: Json): Option<Profile> {
    if !j.JObj? then None
    else
      var o := j.fields;
      var basics :- ParseBasics(fmt, if "basics" in o then o["basics"] else JNull);
      var sections :- AsArray(j => ParseSection(fmt, j), if "sections" in o then o["sections"] else JNull);
      var theme :- Opt(o, "theme", ParseTheme);
      Some(Profile(basics, sections, theme))
  }

  // ---------------------------------------------------------------- validity

  predicate UrlOk(fmt: Formats, o: Option<string>) {
    o.Some? ==> fmt.isUrl(o.value)
  }

  predicate ValidSocial(fmt: Formats, s: SocialLink) {
    fmt.isUrl(s.url)
  }

  predicate ValidItem(fmt: Formats, it: SectionItem) {
    UrlOk(fmt, it.link) && UrlOk(fmt, it.image)
  }

  predicate ValidSection(fmt: Formats, s: Section) {
    forall k :: 0 <= k < |s.items| ==> ValidItem(fmt, s.items[k])
  }

  predicate ValidBasics(fmt: Formats, b: Basics) {
    && UrlOk(fmt, b.avatar)
    && fmt.isEmail(b.email)
    && UrlOk(fmt, b.website)
    && (b.socials.Some? ==> forall k :: 0 <= k < |b.socials.value| ==> ValidSocial(fmt, b.socials.value[k]))
  }

  /** What a profile must satisfy beyond its shape: the format checks. */
  predicate ValidProfile(fmt: Formats, p: Profile) {
    && ValidBasics(fmt, p.basics)
    && forall k :: 0 <= k < |p.sections| ==> ValidSection(fmt, p.sections[k])
  }

  // ---------------------------------------------------------------- JSON form

  function StrJson(s: string): Json {
    JStr(s)
  }

  /** An optional field: written when present, left out when absent. */
  function OptField<T>(m: map<string, Json>, key: string, o: Option<T>, toJson: T -> Json): (r: map<string, Json>)
    ensures o.None? ==> r == m
    ensures o.Some? ==> r == m[key := toJson(o.value)]
  {
    if o.Some? then m[key := toJson(o.value)] else m
  }

  function MapAll<T>(xs: seq<T>, toJson: T -> Json): (r: seq<Json>)
    ensures |r| == |xs| && forall k :: 0 <= k < |xs| ==> r[k] == toJson(xs[k])
  {
    seq(|xs|, k requires 0 <= k < |xs| => toJson(xs[k]))
  }

  function TagsJson(tags: seq<string>): Json {
    JArr(MapAll(tags, StrJson))
  }

  function RecordJson(m: map<string, string>): Json {
    JObj(map k | k in m :: JStr(m[k]))
  }

  function SocialJson(s: SocialLink): Json {
    JObj(OptField(map["platform" := JStr(s.platform), "url" := JStr(s.url)], "username", s.username, StrJson))
  }

  const ItemKeys: set<string> := {"id", "title", "subtitle", "date", "description", "tags", "link", "image", "metadata"}

  /** The JSON value of one key of an item, None when the field is absent. */
  function ItemField(it: SectionItem, key: string): Option<Json> {
    if key == "title" then Some(JStr(it.title))
    else if key == "id" then OptJson(it.id, StrJson)
    else if key == "subtitle" then OptJson(it.subtitle, StrJson)
    else if key == "date" then OptJson(it.date, StrJson)
    else if key == "description" then OptJson(it.description, StrJson)
    else if key == "tags" then OptJson(it.tags, TagsJson)
    else if key == "link" then OptJson(it.link, StrJson)
    else if key == "image" then OptJson(it.image, StrJson)
    else if key == "metadata" then OptJson(it.metadata, RecordJson)
    else None
  }

  function OptJson<T>(o: Option<T>, toJson: T -> Json): Option<Json> {
    if o.Some? then Some(toJson(o.value)) else None
  }

  function ItemJson(it: SectionItem): Json {
    JObj(map k | k in ItemKeys && ItemField(it, k).Some? :: ItemField(it, k).value)
  }

  function NumJson(n: real): Json {
    JNum(n)
  }

  function SectionJson(s: Section): Json {
    JObj(OptField(map["id" := JStr(s.id), "type" := JStr(TypeName(s.kind)), "title" := JStr(s.title), "items" := JArr(MapAll(s.items, ItemJson))], "order", s.order, NumJson))
  }

  function StyleJson(s: ThemeStyle): Json {
    JStr(StyleName(s))
  }

  function LayoutJson(l: ThemeLayout): Json {
    JStr(LayoutName(l))
  }

  function ThemeJson(t: ThemeConfig): Json {
    var m := OptField(map["style" := StyleJson(t.style)], "accentColor", t.accentColor, StrJson);
    var m := OptField(m, "font", t.font, StrJson);
    JObj(OptField(m, "layout", t.layout, LayoutJson))
  }

  function SocialsJson(ss: seq<SocialLink>): Json {
    JArr(MapAll(ss, SocialJson))
  }

  const BasicsKeys: set<string> := {"name", "label", "bio", "avatar", "email", "website", "socials"}

  /** The JSON value of one key of `basics`, None when the field is absent. */
  function BasicsField(b: Basics, key: string): Option<Json> {
    if key == "name" then Some(JStr(b.name))
    else if key == "label" then Some(JStr(b.role))
    else if key == "bio" then Some(JStr(b.bio))
    else if key == "email" then Some(JStr(b.email))
    else if key == "avatar" then OptJson(b.avatar, StrJson)
    else if key == "website" then OptJson(b.website, StrJson)
    else if key == "socials" then OptJson(b.socials, SocialsJson)
    else None
  }

  function BasicsJson(b: Basics): Json {
    JObj(map k | k in BasicsKeys && BasicsField(b, k).Some? :: BasicsField(b, k).value)
  }

  function ProfileJson(p: Profile): Json {
    JObj(OptField(map["basics" := BasicsJson(p.basics), "sections" := JArr(MapAll(p.sections, SectionJson))], "theme", p.theme, ThemeJson))
  }

  // ---------------------------------------------------------------- round trips

  /** An array written element by element reads back when every element does. */
  lemma ParseAllMapAll<T>(xs: seq<T>, toJson: T -> Json, read: Json -> Option<T>)
    requires forall k :: 0 <= k < |xs| ==> read(toJson(xs[k])) == Some(xs[k])
    ensures ParseAll(MapAll(xs, toJson), read) == Some(xs)
  {
    var js := MapAll(xs, toJson);
    assert forall k :: 0 <= k < |js| ==> read(js[k]).Some? by {
      forall k | 0 <= k < |js| ensures read(js[k]).Some? {
        assert js[k] == toJson(xs[k]);
      }
    }
    var r := ParseAll(js, read);
    assert |r.value| == |xs|;
    forall k | 0 <= k < |xs| ensures r.value[k] == xs[k] {
      assert read(js[k]) == Some(r.value[k]);
      assert js[k] == toJson(xs[k]);
    }
    assert r.value == xs;
  }

  lemma SocialRoundTrip(fmt: Formats, s: SocialLink)
    requires ValidSocial(fmt, s)
    ensures ParseSocial(fmt, SocialJson(s)) == Some(s)
  {
  }

  lemma ItemTextRoundTrip(it: SectionItem)
    ensures ItemText(ItemJson(it).fields) == Some((it.id, it.title, it.subtitle, it.date, it.description))
  {
  }

  lemma ItemExtrasRoundTrip(fmt: Formats, it: SectionItem)
    requires ValidItem(fmt, it)
    ensures ItemExtras(fmt, ItemJson(it).fields) == Some((it.tags, it.link, it.image, it.metadata))
  {
    if it.tags.Some? {
      ParseAllMapAll(it.tags.value, StrJson, AsStr);
    }
    if it.metadata.Some? {
      RecordRoundTrip(it.metadata.value);
    }
  }

  lemma ItemRoundTrip(fmt: Formats, it: SectionItem)
    requires ValidItem(fmt, it)
    ensures ParseItem(fmt, ItemJson(it)) == Some(it)
  {
    ItemTextRoundTrip(it);
    ItemExtrasRoundTrip(fmt, it);
  }

  lemma RecordRoundTrip(m: map<string, string>)
    ensures AsRecord(RecordJson(m)) == Some(m)
  {
    var f := RecordJson(m).fields;
    assert f.Keys == m.Keys;
    assert (map k | k in f :: f[k].s) == m;
  }

  lemma SectionRoundTrip(fmt: Formats, s: Section)
    requires ValidSection(fmt, s)
    ensures ParseSection(fmt, SectionJson(s)) == Some(s)
  {
    forall k | 0 <= k < |s.items| ensures ParseItem(fmt, ItemJson(s.items[k])) == Some(s.items[k]) {
      ItemRoundTrip(fmt, s.items[k]);
    }
    ParseAllMapAll(s.items, ItemJson, j => ParseItem(fmt, j));
    SectionTypeNames("", s.kind);
  }

  lemma ThemeRoundTrip(t: ThemeConfig)
    ensures ParseTheme(ThemeJson(t)) == Some(t)
  {
    ThemeNames("", t.style, if t.layout.Some? then t.layout.value else Split);
  }

  lemma BasicsTextRoundTrip(fmt: Formats, b: Basics)
    requires ValidBasics(fmt, b)
    ensures BasicsText(fmt, BasicsJson(b).fields) == Some((b.name, b.role, b.bio, b.email))
  {
  }

  lemma BasicsLinksRoundTrip(fmt: Formats, b: Basics)
    requires ValidBasics(fmt, b)
    ensures BasicsLinks(fmt, BasicsJson(b).fields) == Some((b.avatar, b.website, b.socials))
  {
    if b.socials.Some? {
      var ss := b.socials.value;
      forall k | 0 <= k < |ss| ensures ParseSocial(fmt, SocialJson(ss[k])) == Some(ss[k]) {
        SocialRoundTrip(fmt, ss[k]);
      }
      ParseAllMapAll(ss, SocialJson, j => ParseSocial(fmt, j));
    }
  }

  lemma BasicsRoundTrip(fmt: Formats, b: Basics)
    requires ValidBasics(fmt, b)
    ensures ParseBasics(fmt, BasicsJson(b)) == Some(b)
  {
    BasicsTextRoundTrip(fmt, b);
    BasicsLinksRoundTrip(fmt, b);
  }

  /** A valid profile written as JSON is read back unchanged. */
  lemma ProfileRoundTrip(fmt: Formats, p: Profile)
    requires ValidProfile(fmt, p)
    ensures ParseProfile(fmt, ProfileJson(p)) == Some(p)
  {
    BasicsRoundTrip(fmt, p.basics);
    forall k | 0 <= k < |p.sections| ensures ParseSection(fmt, SectionJson(p.sections[k])) == Some(p.sections[k]) {
      SectionRoundTrip(fmt, p.sections[k]);
    }
    ParseAllMapAll(p.sections, SectionJson, j => ParseSection(fmt, j));
    if p.theme.Some? {
      ThemeRoundTrip(p.theme.value);
    }
  }

  // ---------------------------------------------------------------- what the parsers accept

  /** Whatever the parsers accept passes the format checks. */
  lemma ParsedItemValid(fmt: Formats, j: Json)
    requires ParseItem(fmt, j).Some?
    ensures ValidItem(fmt, ParseItem(fmt, j).value)
  {
  }

  lemma ParsedBasicsValid(fmt: Formats, j: Json)
    requires ParseBasics(fmt, j).Some?
    ensures ValidBasics(fmt, ParseBasics(fmt, j).value)
  {
    var o := j.fields;
    if "socials" in o {
      var socials := ParseBasics(fmt, j).value.socials;
      if socials.Some? {
        var ss := socials.value;
        var js := o["socials"].elems;
        forall k | 0 <= k < |ss| ensures ValidSocial(fmt, ss[k]) {
          assert ParseSocial(fmt, js[k]) == Some(ss[k]);
        }
      }
    }
  }

  lemma ParsedProfileValid(fmt: Formats, j: Json)
    requires ParseProfile(fmt, j).Some?
    ensures ValidProfile(fmt, ParseProfile(fmt, j).value)
  {
    var p := ParseProfile(fmt, j).value;
    var o := j.fields;
    ParsedBasicsValid(fmt, o["basics"]);
    var js := o["sections"].elems;
    forall k | 0 <= k < |p.sections| ensures ValidSection(fmt, p.sections[k]) {
      assert ParseSection(fmt, js[k]) == Some(p.sections[k]);
      var so := js[k].fields;
      var items := p.sections[k].items;
      forall m | 0 <= m < |items| ensures ValidItem(fmt, items[m]) {
        assert ParseItem(fmt, so["items"].elems[m]) == Some(items[m]);
        ParsedItemValid(fmt, so["items"].elems[m]);
      }
    }
  }

  /** An item needs only its title: an object holding just a string title is accepted. */
  lemma ItemNeedsOnlyTitle(fmt: Formats, title: string)
    ensures ParseItem(fmt, JObj(map["title" := JStr(title)])) == Some(SectionItem(None, title, None, None, None, None, None, None, None))
  {
  }

  /** An item without a string title is refused. */
  lemma ItemTitleRequired(fmt: Formats, o: map<string, Json>)
    requires "title" !in o || !o["title"].JStr?
    ensures ParseItem(fmt, JObj(o)).None?
  {
  }

  /** A section needs its id, type, title and items; `order` may be missing. */
  lemma SectionFieldsRequired(fmt: Formats, o: map<string, Json>)
    requires "id" !in o || "type" !in o || "title" !in o || "items" !in o
    ensures ParseSection(fmt, JObj(o)).None?
  {
  }

  lemma SectionOrderOptional(fmt: Formats, s: Section)
    requires ValidSection(fmt, s) && s.order.None?
    ensures "order" !in SectionJson(s).fields
    ensures ParseSection(fmt, SectionJson(s)) == Some(s)
  {
    SectionRoundTrip(fmt, s);
  }

  /** Basics need name, label, bio and email. */
  lemma BasicsFieldsRequired(fmt: Formats, o: map<string, Json>)
    requires "name" !in o || "label" !in o || "bio" !in o || "email" !in o
    ensures ParseBasics(fmt, JObj(o)).None?
  {
  }

  /** A social link needs platform and url. */
  lemma SocialFieldsRequired(fmt: Formats, o: map<string, Json>)
    requires "platform" !in o || "url" !in o
    ensures ParseSocial(fmt, JObj(o)).None?
  {
  }

  /** A present theme must have a string style. */
  lemma ThemeStyleRequired(fmt: Formats, o: map<string, Json>)
    requires "theme" in o && o["theme"].JObj? && ("style" !in o["theme"].fields || !o["theme"].fields["style"].JStr?)
    ensures ParseProfile(fmt, JObj(o)).None?
  {
  }

  /** zod drops keys it does not know: an item is read from its nine keys
      only, so objects that agree on those give the same item. */
  lemma ItemReadsOnlyItsKeys(fmt: Formats, o1: map<string, Json>, o2: map<string, Json>)
    requires forall k :: k in ItemKeys ==> (k in o1 <==> k in o2)
    requires forall k :: k in ItemKeys && k in o1 ==> o1[k] == o2[k]
    ensures ParseItem(fmt, JObj(o1)) == ParseItem(fmt, JObj(o2))
  {
    ItemTextReadsKeys(o1, o2);
    ItemExtrasReadsKeys(fmt, o1, o2);
  }

  lemma ItemTextReadsKeys(o1: map<string, Json>, o2: map<string, Json>)
    requires forall k :: k in ItemKeys ==> (k in o1 <==> k in o2)
    requires forall k :: k in ItemKeys && k in o1 ==> o1[k] == o2[k]
    ensures ItemText(o1) == ItemText(o2)
  {
    assert {"id", "title", "subtitle", "date", "description"} <= ItemKeys;
  }

  lemma ItemExtrasReadsKeys(fmt: Formats, o1: map<string, Json>, o2: map<string, Json>)
    requires forall k :: k in ItemKeys ==> (k in o1 <==> k in o2)
    requires forall k :: k in ItemKeys && k in o1 ==> o1[k] == o2[k]
    ensures ItemExtras(fmt, o1) == ItemExtras(fmt, o2)
  {
    assert {"tags", "link", "image", "metadata"} <= ItemKeys;
  }
}
