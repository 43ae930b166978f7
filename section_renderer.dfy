/** components/builder/SectionRenderer.tsx: the dispatcher that picks a layout
    component by the section's type. A React element is modelled as what JSX
    creates: the component chosen and the props given to it. */
module SectionRenderer {
  import opened Base
  import opened Schema

  /** The four layout components. */
  datatype Layout = TimelineSection | GridListSection | TextContentSection | GallerySection

  /** `<Layout section={section} index={index} />` */
  datatype Element = Element(layout: Layout, section: Section, index: nat)

  /** The `case` labels of the `switch`; `None` is the `default` branch. */
  function Dispatch(typeName: string): (l: Option<Layout>)
    ensures l.None? <==> typeName !in {"timeline", "grid-list", "text-content", "gallery"}
  {
    if typeName == "timeline" then Some(TimelineSection)
    else if typeName == "grid-list" then Some(GridListSection)
    else if typeName == "text-content" then Some(TextContentSection)
    else if typeName == "gallery" then Some(GallerySection)
    else None
  }

  /** The type name each layout is chosen for. */
  function LayoutFor(l: Layout): string {
    match l
    case TimelineSection => "timeline"
    case GridListSection => "grid-list"
    case TextContentSection => "text-content"
    case GallerySection => "gallery"
  }

  /** `SectionRenderer({ section, index })`; `None` is `null`. */
  function Render(section: Section, index: nat): Option<Element> {
    match Dispatch(TypeName(section.kind))
    case None => None
    case Some(l) => Some(Element(l, section, index))
  }

  /** Each layout is chosen for exactly one type name, so the four are distinct. */
  lemma DispatchExact(typeName: string, l: Layout)
    ensures Dispatch(typeName) == Some(l) <==> typeName == LayoutFor(l)
  {
  }

  /** An unknown type renders nothing: there is no fallback layout. */
  lemma UnknownTypeRendersNothing(typeName: string)
    requires typeName != "timeline" && typeName != "grid-list" && typeName != "text-content" && typeName != "gallery"
    ensures Dispatch(typeName).None?
  {
  }

  /** Every section type of the schema has its own layout, which receives the
      section and the index unchanged. */
  lemma RenderPassesProps(section: Section, index: nat)
    ensures Render(section, index).Some?
    ensures Render(section, index).value.section == section
    ensures Render(section, index).value.index == index
    ensures LayoutFor(Render(section, index).value.layout) == TypeName(section.kind)
  {
  }

  /** Different section types get different layouts. */
  lemma LayoutsDistinct(s1: Section, s2: Section, index: nat)
    requires s1.kind != s2.kind
    ensures Render(s1, index).value.layout != Render(s2, index).value.layout
  {
    RenderPassesProps(s1, index);
    RenderPassesProps(s2, index);
    if Render(s1, index).value.layout == Render(s2, index).value.layout {
      TypeNameInjective(s1.kind, s2.kind);
    }
  }

  /** The layout depends on the section's type alone. */
  lemma LayoutOnlyByType(s1: Section, s2: Section, i1: nat, i2: nat)
    requires s1.kind == s2.kind
    ensures Render(s1, i1).value.layout == Render(s2, i2).value.layout
  {
  }
}
