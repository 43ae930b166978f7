/** components/builder/PageBuilder.tsx: the page of an academic profile. The
    header shows the basics, the sections follow sorted by `order ?? 999`, each
    drawn by the section renderer with its sorted position, and the footer
    names the theme. The page is modelled by what it shows, as in GridList. */
module PageBuilder {
  import opened Base
  import opened Schema
  import SectionRenderer

  /** The order a section without one sorts at. */
  const DefaultOrder: real := 999.0

  /** `a.order ?? 999`: a present order is used as it is, even 0. */
  function OrderKey(s: Section): real {
    s.order.GetOr(DefaultOrder)
  }

  predicate SortedByOrder(xs: seq<Section>) {
    forall i, j :: 0 <= i < j < |xs| ==> OrderKey(xs[i]) <= OrderKey(xs[j])
  }

  /** Put `x` before the first element whose key is not below its own. */
  function Insert(x: Section, ys: seq<Section>): (r: seq<Section>)
    ensures multiset(r) == multiset(ys) + multiset{x}
    ensures |r| == |ys| + 1
  {
    if ys == [] || OrderKey(x) <= OrderKey(ys[0]) then [x] + ys
    else
      assert ys == [ys[0]] + ys[1..];
      [ys[0]] + Insert(x, ys[1..])
  }

  /** `[...sections].sort((a, b) => (a.order ?? 999) - (b.order ?? 999))`, the
      stable sort ECMAScript 2019 requires, written as an insertion sort. The
      argument is a value, so the profile's own list is left as it was. */
  function SortSections(xs: seq<Section>): (r: seq<Section>)
    ensures multiset(r) == multiset(xs)
    ensures |r| == |xs|
  {
    if xs == [] then []
    else
      assert xs == [xs[0]] + xs[1..];
      Insert(xs[0], SortSections(xs[1..]))
  }

  /** The sections whose key is `k`, in their order. */
  function WithKey(xs: seq<Section>, k: real): seq<Section> {
    if xs == [] then []
    else (if OrderKey(xs[0]) == k then [xs[0]] else []) + WithKey(xs[1..], k)
  }

  // ---------------------------------------------------------------- sorting

  /** Inserting keeps a lower bound that `x` and all of `ys` respect. */
  lemma {:induction false} InsertBounded(x: Section, ys: seq<Section>, b: real)
    requires b <= OrderKey(x)
    requires forall i :: 0 <= i < |ys| ==> b <= OrderKey(ys[i])
    ensures forall i :: 0 <= i < |Insert(x, ys)| ==> b <= OrderKey(Insert(x, ys)[i])
  {
    if ys != [] && OrderKey(ys[0]) < OrderKey(x) {
      InsertBounded(x, ys[1..], b);
    }
  }

  lemma {:induction false} InsertSorted(x: Section, ys: seq<Section>)
    requires SortedByOrder(ys)
    ensures SortedByOrder(Insert(x, ys))
  {
    if ys != [] && OrderKey(ys[0]) < OrderKey(x) {
      var rest := Insert(x, ys[1..]);
      InsertSorted(x, ys[1..]);
      InsertBounded(x, ys[1..], OrderKey(ys[0]));
      ConsSorted(ys[0], rest);
    }
  }

  /** A head no greater than anything after it extends a sorted list. */
  lemma ConsSorted(h: Section, rest: seq<Section>)
    requires SortedByOrder(rest)
    requires forall i :: 0 <= i < |rest| ==> OrderKey(h) <= OrderKey(rest[i])
    ensures SortedByOrder([h] + rest)
  {
    var r := [h] + rest;
    forall i, j | 0 <= i < j < |r|
      ensures OrderKey(r[i]) <= OrderKey(r[j])
    {
      assert r[j] == rest[j - 1];
      if i > 0 {
        assert r[i] == rest[i - 1];
      }
    }
  }

  /** The sorted sections are in non-decreasing `order ?? 999`. */
  lemma {:induction false} SortedSectionsAscend(xs: seq<Section>)
    ensures SortedByOrder(SortSections(xs))
  {
    if xs != [] {
      SortedSectionsAscend(xs[1..]);
      InsertSorted(xs[0], SortSections(xs[1..]));
    }
  }

  lemma {:induction false} WithKeyAppend(a: seq<Section>, b: seq<Section>, k: real)
    ensures WithKey(a + b, k) == WithKey(a, k) + WithKey(b, k)
  {
    if a == [] {
      assert a + b == b;
    } else {
      assert (a + b)[0] == a[0];
      assert (a + b)[1..] == a[1..] + b;
      WithKeyAppend(a[1..], b, k);
    }
  }

  lemma {:induction false} InsertStable(x: Section, ys: seq<Section>, k: real)
    requires SortedByOrder(ys)
    ensures WithKey(Insert(x, ys), k) == (if OrderKey(x) == k then [x] else []) + WithKey(ys, k)
  {
    if ys == [] || OrderKey(x) <= OrderKey(ys[0]) {
      var r := [x] + ys;
      assert r[0] == x && r[1..] == ys;
    } else {
      var rest := Insert(x, ys[1..]);
      InsertStable(x, ys[1..], k);
      var r := [ys[0]] + rest;
      assert r[0] == ys[0] && r[1..] == rest;
    }
  }

  /** Ties keep their input order: the sections of any one key come out in the
      order they went in. */
  lemma {:induction false} SortIsStable(xs: seq<Section>, k: real)
    ensures WithKey(SortSections(xs), k) == WithKey(xs, k)
  {
    if xs != [] {
      SortIsStable(xs[1..], k);
      SortedSectionsAscend(xs[1..]);
      InsertStable(xs[0], SortSections(xs[1..]), k);
    }
  }

  /** A section without an order comes after every section ordered below 999. */
  lemma UnorderedAfterOrdered(xs: seq<Section>, i: nat, j: nat)
    requires i < |xs| && j < |xs|
    requires SortSections(xs)[j].order.None? && OrderKey(SortSections(xs)[i]) < DefaultOrder
    ensures i < j
  {
    SortedSectionsAscend(xs);
    UnorderedLast(SortSections(xs), i, j);
  }

  lemma UnorderedLast(s: seq<Section>, i: nat, j: nat)
    requires SortedByOrder(s) && i < |s| && j < |s|
    requires s[j].order.None? && OrderKey(s[i]) < DefaultOrder
    ensures i < j
  {
  }

  // ---------------------------------------------------------------- the page

  datatype Image = Image(src: string, alt: string)

  /** `<a href target="_blank">{text}</a>` */
  datatype Anchor = Anchor(href: string, text: string)

  datatype Header = Header(
    avatar: Option<Image>,
    name: string,
    role: string,
    bio: string,
    email: Anchor,
    website: Option<Anchor>,
    socials: Option<seq<Anchor>>)

  datatype Page = Page(header: Header, sections: seq<Option<SectionRenderer.Element>>, footer: string)

  const FooterPrefix: string := "Generated with Vision AI • Theme: "

  function SocialAnchor(s: SocialLink): Anchor {
    Anchor(s.url, s.platform)
  }

  function HeaderOf(b: Basics): Header {
    Header(
      if Truthy(b.avatar) then Some(Image(b.avatar.value, b.name)) else None,
      b.name,
      b.role,
      b.bio,
      Anchor("mailto:" + b.email, "📧 Email"),
      if Truthy(b.website) then Some(Anchor(b.website.value, "🌐 Website")) else None,
      if b.socials.Some? && |b.socials.value| > 0
      then Some(seq(|b.socials.value|, k requires 0 <= k < |b.socials.value| => SocialAnchor(b.socials.value[k])))
      else None)
  }

  /** `theme?.style || 'default'` */
  function ThemeLabel(theme: Option<ThemeConfig>): string {
    if theme.Some? && StyleName(theme.value.style) != "" then StyleName(theme.value.style) else "default"
  }

  /** `PageBuilder({ profile })` */
  function Build(p: Profile): Page {
    var sorted := SortSections(p.sections);
    Page(HeaderOf(p.basics),
         seq(|sorted|, i requires 0 <= i < |sorted| => SectionRenderer.Render(sorted[i], i)),
         FooterPrefix + ThemeLabel(p.theme))
  }

  /** The sections shown are the profile's sections, each exactly once, in
      sorted order; each is handed its position in that order as its index. */
  lemma SectionsBySortedPosition(p: Profile)
    ensures var page := Build(p);
      && |page.sections| == |p.sections|
      && (forall i :: 0 <= i < |page.sections| ==> (page.sections[i].Some?
            && page.sections[i].value.section == SortSections(p.sections)[i]
            && page.sections[i].value.index == i))
      && multiset(SortSections(p.sections)) == multiset(p.sections)
      && SortedByOrder(SortSections(p.sections))
  {
    SortedSectionsAscend(p.sections);
    var sorted := SortSections(p.sections);
    forall i | 0 <= i < |sorted|
      ensures Build(p).sections[i] == SectionRenderer.Render(sorted[i], i)
    {
    }
    forall i | 0 <= i < |sorted|
      ensures SectionRenderer.Render(sorted[i], i).Some?
        && SectionRenderer.Render(sorted[i], i).value.section == sorted[i]
        && SectionRenderer.Render(sorted[i], i).value.index == i
    {
      SectionRenderer.RenderPassesProps(sorted[i], i);
    }
  }

  /** Avatar and website appear only when present and non-empty, the social
      links only when the list is present and not empty, and the email link
      always; each carries the field as given. */
  lemma HeaderPresence(b: Basics)
    ensures var h := HeaderOf(b);
      && h.name == b.name && h.role == b.role && h.bio == b.bio
      && h.email.href == "mailto:" + b.email
      && (h.avatar.Some? <==> Truthy(b.avatar))
      && (h.avatar.Some? ==> h.avatar.value == Image(b.avatar.value, b.name))
      && (h.website.Some? <==> Truthy(b.website))
      && (h.website.Some? ==> h.website.value.href == b.website.value)
      && (h.socials.Some? <==> b.socials.Some? && b.socials.value != [])
      && (h.socials.Some? ==> (|h.socials.value| == |b.socials.value|
            && forall k :: 0 <= k < |b.socials.value| ==>
                 h.socials.value[k] == Anchor(b.socials.value[k].url, b.socials.value[k].platform)))
  {
  }

  /** The footer names the theme's style, or "default" without a theme. */
  lemma FooterNamesTheme(p: Profile)
    ensures p.theme.None? ==> Build(p).footer == FooterPrefix + "default"
    ensures p.theme.Some? ==> Build(p).footer == FooterPrefix + StyleName(p.theme.value.style)
  {
  }
}
