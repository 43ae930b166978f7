/** The résumé dictionary the Python renderers receive from `json.loads`:
    every key may be absent (None), and the renderers read it with
    `dict.get(key, default)` and test it for truthiness. */
module ResumeData {
  import opened Base

  /** One entry of a section: a position, a paper, a project. */
  datatype Item = Item(
    title: Option<string>,
    subtitle: Option<string>,
    date: Option<string>,
    description: Option<string>,
    tags: Option<seq<string>>)

  /** A section: `type` is the key the renderers dispatch on ("timeline",
      "grid-list", "text-content"); it is called `kind` here. */
  datatype Section = Section(kind: Option<string>, title: Option<string>, items: Option<seq<Item>>)

  datatype Resume = Resume(
    name: Option<string>,
    title: Option<string>,
    email: Option<string>,
    website: Option<string>,
    bio: Option<string>,
    sections: Option<seq<Section>>)

  /** `data.get("sections", [])` */
  function Sections(d: Resume): seq<Section> {
    d.sections.GetOr([])
  }

  /** `section.get("items", [])` */
  function Items(s: Section): seq<Item> {
    s.items.GetOr([])
  }

  /** `section.get("type", "text-content")` */
  function Kind(s: Section): string {
    Get(s.kind, "text-content")
  }

  /** `section.get("title", "")` */
  function Heading(s: Section): string {
    Get(s.title, "")
  }

  /** `item.get("tags", [])` */
  function Tags(it: Item): seq<string> {
    it.tags.GetOr([])
  }

  /** The same résumé with every section's type replaced by `kind` (None drops them). */
  function Retyped(d: Resume, kind: Option<string>): (e: Resume)
    ensures |Sections(e)| == |Sections(d)|
  {
    d.(sections := Some(seq(|Sections(d)|, k requires 0 <= k < |Sections(d)| => Sections(d)[k].(kind := kind))))
  }
}
