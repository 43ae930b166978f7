/** components/builder/GridListSection.tsx: a section drawn as a grid of cards,
    one per item. Each card is modelled by what it shows: the parts JSX renders
    (a `None` part is a `{cond && ...}` that renders nothing) with the text or
    attribute each carries. Class names and animation settings are left out. */
module GridList {
  import opened Base
  import opened Schema

  /** At most this many tags are shown on a card. */
  const MaxTags: nat := 5

  /** The React `key` of a card: the item's id when truthy, else its position. */
  datatype CardKey = IdKey(id: string) | IndexKey(position: nat)

  /** The tag chips shown, and the `+n` counter after them when tags were cut. */
  datatype TagsBlock = TagsBlock(shown: seq<string>, overflow: Option<string>)

  /** The metadata strip: the citations line and the type badge. */
  datatype MetaBlock = MetaBlock(citations: Option<string>, kind: Option<string>)

  /** An `<img src alt>` */
  datatype Image = Image(src: string, alt: string)

  datatype Card = Card(
    key: CardKey,
    image: Option<Image>,
    title: string,
    subtitle: Option<string>,
    date: Option<string>,
    description: Option<string>,
    tags: Option<TagsBlock>,
    meta: Option<MetaBlock>,
    link: Option<string>)

  /** The section: its heading and the cards of the grid. */
  datatype View = View(heading: string, cards: seq<Card>)

  /** `{x && <p>{x}</p>}` for an optional string: shown only when truthy. */
  function Shown(o: Option<string>): (r: Option<string>)
    ensures r.Some? <==> Truthy(o)
    ensures r.Some? ==> r.value == o.value
  {
    if Truthy(o) then o else None
  }

  /** `+{tags.length - 5}` */
  function OverflowText(hidden: nat): string {
    "+" + NatToDecimal(hidden)
  }

  /** `tags.slice(0, 5)` and the counter shown when there are more than five. */
  function Tags(tags: Option<seq<string>>): Option<TagsBlock> {
    if tags.None? || |tags.value| == 0 then None
    else
      var n := |tags.value|;
      Some(TagsBlock(tags.value[..if n < MaxTags then n else MaxTags],
                     if n > MaxTags then Some(OverflowText(n - MaxTags)) else None))
  }

  /** `item.metadata && Object.keys(item.metadata).length > 0 && ...` */
  function Meta(metadata: Option<map<string, string>>): Option<MetaBlock> {
    if metadata.None? || |metadata.value.Keys| == 0 then None
    else
      var m := metadata.value;
      var citations := if "citations" in m then Some(m["citations"]) else None;
      var kind := if "type" in m then Some(m["type"]) else None;
      Some(MetaBlock(if Truthy(citations) then Some("📊 " + citations.value + " citations") else None,
                     Shown(kind)))
  }

  /** The card of `item` at position `position`. */
  function CardOf(item: SectionItem, position: nat): Card {
    Card(
      if Truthy(item.id) then IdKey(item.id.value) else IndexKey(position),
      if Truthy(item.image) then Some(Image(item.image.value, item.title)) else None,
      item.title,
      Shown(item.subtitle),
      Shown(item.date),
      Shown(item.description),
      Tags(item.tags),
      Meta(item.metadata),
      Shown(item.link))
  }

  /** `GridListSection({ section, index })`; `index` only sets the entry delay. */
  function Render(section: Section, index: nat): View {
    View(section.title, seq(|section.items|, k requires 0 <= k < |section.items| => CardOf(section.items[k], k)))
  }

  // ---------------------------------------------------------------- tags

  /** The first five tags are shown, in input order; with more than five a
      counter says how many were left out, and the two together account for
      every tag. */
  lemma TagsCapped(tags: seq<string>)
    requires |tags| > 0
    ensures var b := Tags(Some(tags)).value;
      && |b.shown| <= MaxTags
      && b.shown == tags[..|b.shown|]
      && (|tags| <= MaxTags ==> b.shown == tags && b.overflow.None?)
      && (|tags| > MaxTags ==> |b.shown| == MaxTags && b.overflow == Some("+" + NatToDecimal(|tags| - |b.shown|)))
  {
  }

  /** The counter's number is the count of hidden tags, read back from its text. */
  lemma OverflowCounts(tags: seq<string>)
    requires |tags| > MaxTags
    ensures var b := Tags(Some(tags)).value;
      b.overflow.Some? && |b.overflow.value| > 0 && b.overflow.value[0] == '+'
      && DecimalToNat(b.overflow.value[1..]) + |b.shown| == |tags|
  {
    DecimalRoundTrip(|tags| - MaxTags);
    var t := OverflowText(|tags| - MaxTags);
    assert t[1..] == NatToDecimal(|tags| - MaxTags);
  }

  /** The tags block is left out exactly when the item has no tags. */
  lemma TagsOmitted(tags: Option<seq<string>>)
    ensures Tags(tags).None? <==> tags.None? || tags.value == []
  {
  }

  // ---------------------------------------------------------------- cards

  /** The title always appears; every other part appears exactly when its field
      is present and non-empty, and then carries the field as given. The key is
      the id when that is non-empty, else the position. */
  lemma CardFields(item: SectionItem, position: nat)
    ensures var c := CardOf(item, position);
      && c.title == item.title
      && (c.key.IdKey? <==> Truthy(item.id)) && (c.key.IdKey? ==> c.key.id == item.id.value)
      && (c.key.IndexKey? ==> c.key.position == position)
      && (c.image.Some? <==> Truthy(item.image))
      && (c.image.Some? ==> c.image.value == Image(item.image.value, item.title))
      && (c.subtitle.Some? <==> Truthy(item.subtitle)) && (c.subtitle.Some? ==> c.subtitle == item.subtitle)
      && (c.date.Some? <==> Truthy(item.date)) && (c.date.Some? ==> c.date == item.date)
      && (c.description.Some? <==> Truthy(item.description)) && (c.description.Some? ==> c.description == item.description)
      && (c.link.Some? <==> Truthy(item.link)) && (c.link.Some? ==> c.link == item.link)
  {
  }

  /** The metadata strip needs at least one key; inside it, citations and type
      appear only when present and non-empty. */
  lemma MetaFields(metadata: Option<map<string, string>>)
    ensures Meta(metadata).Some? <==> metadata.Some? && metadata.value != map[]
    ensures Meta(metadata).Some? ==>
      && (Meta(metadata).value.citations.Some? <==> "citations" in metadata.value && metadata.value["citations"] != "")
      && (Meta(metadata).value.kind.Some? <==> "type" in metadata.value && metadata.value["type"] != "")
  {
    if metadata.Some? && metadata.value != map[] {
      var k :| k in metadata.value;
      assert k in metadata.value.Keys;
    }
  }

  /** A metadata object whose only keys are neither citations nor type still
      draws the (empty) strip. */
  lemma OtherMetadataDrawsEmptyStrip(m: map<string, string>)
    requires m != map[] && "citations" !in m && "type" !in m
    ensures Meta(Some(m)) == Some(MetaBlock(None, None))
  {
    var k :| k in m;
    assert k in m.Keys;
  }

  /** One card per item, in the order of `section.items`, under the section's title. */
  lemma CardsInItemOrder(section: Section, index: nat)
    ensures Render(section, index).heading == section.title
    ensures |Render(section, index).cards| == |section.items|
    ensures forall k :: 0 <= k < |section.items| ==> Render(section, index).cards[k].title == section.items[k].title
    ensures forall k :: 0 <= k < |section.items| ==> Render(section, index).cards[k] == CardOf(section.items[k], k)
  {
  }

  /** The view does not depend on the section's position on the page. */
  lemma IndexOnlyAnimates(section: Section, i: nat, j: nat)
    ensures Render(section, i) == Render(section, j)
  {
  }
}
