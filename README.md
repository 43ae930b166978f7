# Résumé-to-homepage generator: a Dafny model

The system turns an academic CV into a personal homepage.

On the Python side, a vision model reads the CV pages and replies with JSON. The parsers unwrap that reply from its code fence and decode it into a résumé dictionary. Theme functions then splice the dictionary into fixed HTML, producing one page per theme, and a README for a GitHub Pages repository is written beside it.

On the TypeScript side, a zod schema describes the academic profile, and a server action checks its inputs before it calls the model and classifies the errors that come back. React components order the sections of the profile, dispatch each one to a layout, and draw grid cards.

This project models those transformations and proves what they promise:

- the order sections and items appear in;
- which fields are shown, omitted or defaulted (Python and JavaScript truthiness: an empty string counts as absent);
- dispatch on the section type;
- the fence slicing, including its edge cases;
- the schema's required and optional fields, with a JSON round trip;
- the guard order and the first-match error classification of the server action;
- the stable sort by `order ?? 999`;
- the five-tag cap and its overflow counter.

Every `+=` loop of a renderer is a `method` with a `while` loop, proved equal to a function that gives the page as a `Join` of its parts.

Modules:

| file | module | models |
|---|---|---|
| base.dfy | Base | Option, Python `dict.get` and truthiness, ordered concatenation (`ConcatMap`, `Join`), "contains" and "precedes" on text, decimal rendering of naturals |
| text.dfy | Text | Python `strip`/slicing/`startswith`/`replace(' ', '')`/`lower`, JavaScript `trim`/`includes` |
| resume.dfy | ResumeData | the résumé dictionary the Python renderers receive |
| fence.dfy | FenceStrip | the reply unwrapping shared by every `parse_with_*` |
| template_generator.dfy | TemplateGenerator | the three themes and the theme table of `generate_all_themes` |
| gradio_app.dfy | GradioApp | `generate_html` |
| gradio_v2.dfy | GradioV2 | the four templates, `TEMPLATES`, `update_info`, the README |
| gradio_advanced.dfy | GradioAdvanced | `generate_advanced_template`, `bilingual_data`, the README and the repository name; `Enumerate` is a helper for Python's `enumerate` |
| schema.dfy | Schema | the zod schemas as datatypes, their parsers from JSON, validity, JSON writers; `ReqStr`, `Opt`, `OptField` and `MapAll` are field-reading and field-writing helpers whose meaning is carried by the round-trip lemmas |
| parse_resume.dfy | ParseResume | `parseResumeAction` with the model call as a given outcome |
| section_renderer.dfy | SectionRenderer | the `switch` on `section.type` |
| page_builder.dfy | PageBuilder | the section sort, the header, the footer |
| grid_list.dfy | GridList | the cards of a grid-list section; `Shown` is the helper for a `{x && …}` part, whose meaning `CardFields` states |

The `<style>` and `<script>` blocks are opaque constants. All other markup, including the whitespace of the triple-quoted f-strings, is written out as the templates write it. Interpolated text is spliced in raw, just as the source splices it: nothing is escaped.

## Model

| member | source | states |
|---|---|---|
| `Text.StripShape` | gradio_app.py:83 | `str.strip()` keeps a contiguous piece of the text; only whitespace is cut from either side, and the result neither starts nor ends with whitespace |
| `Text.StripUnchanged` | gradio_app.py:85 | text that neither starts nor ends with whitespace is not changed by `strip()` |
| `Text.StripIdempotent` | gradio_app.py:85 | stripping twice is the same as stripping once |
| `Text.StripEmptyIff` | app/actions/parseResume.ts:41 | `trim()` is empty exactly when every character is whitespace |
| `Text.PySliceDropsEnds` | gradio_app.py:85 | `t[a:-b]` drops exactly the first `a` and the last `b` characters, so the string is prefix + slice + suffix; when `a + b` reaches the length the slice is empty |
| `Text.Includes` | app/actions/parseResume.ts:194 | `includes` holds exactly when the substring occurs somewhere in the text |
| `Text.LowerFacts` | gradio_advanced_app.py:491 | after `lower()` no ASCII capital is left; text without capitals is unchanged; lowering twice is lowering once; lowering works piecewise over a concatenation |
| `Text.RemoveSpaces` | gradio_advanced_app.py:491 | `replace(' ', '')` leaves no space and is no longer than its input |
| `Text.RemoveSpacesKeepsOthers` | gradio_advanced_app.py:491 | text without spaces is not changed by `replace(' ', '')` |
| `Text.RemoveSpacesAppend` | gradio_advanced_app.py:491 | removing spaces works piecewise over a concatenation |
| `FenceStrip.BacktickEdges` | gradio_app.py:83-87 | a reply that starts and ends with a backtick is not changed by the first `strip()` |
| `FenceStrip.FencedJsonRoundTrip` | gradio_app.py:83-85 | a body fenced as "```json … ```" unwraps to the body, stripped |
| `FenceStrip.BareFenceNotJson` | gradio_app.py:84-86 | a bare-fenced reply is read as "```json" only when the body itself starts with "json" |
| `FenceStrip.FencedBareRoundTrip` | gradio_app.py:86-87 | a body fenced as "``` … ```" unwraps to the body, stripped |
| `FenceStrip.BareFenceKeptWithoutBare` | gradio_v2_app.py:299-302 | the v2 OpenAI parser hands a bare-fenced reply to `json.loads` with its fences still on |
| `FenceStrip.JsonFenceIsFence` | gradio_app.py:84-86 | a "```json" opening is also a "```" opening, so the `elif` order decides |
| `FenceStrip.UnfencedOnlyStripped` | gradio_app.py:83-87 | a reply that does not open with a fence is only stripped |
| `FenceStrip.ShortJsonFenceEmpty` | gradio_app.py:85 | `t[7:-3]` is empty when the stripped reply has 10 characters or fewer |
| `FenceStrip.UnclosedJsonFenceLosesTail` | gradio_app.py:85 | the last three characters are cut whether or not they close the fence |
| `FenceStrip.ResultIsStripped` | gradio_advanced_app.py:566-570 | the text handed to `json.loads` never starts or ends with whitespace |
| `FenceStrip.Unwrap` | gradio_advanced_app.py:566-570 | the step-by-step reassignment of `text` computes the unwrapped reply |
| `FenceStrip.ParseReply` | gradio_v2_app.py:273-281 | the parser gives data or an error, never both; a raised vendor call or a failed decode becomes "<provider> 解析失敗: <message>"; otherwise the decoded unwrapped reply |
| `FenceStrip.FencedReplyParses` | gradio_advanced_app.py:566-573 | a "```json"-fenced reply whose body decodes is parsed to that value |
| `TemplateGenerator.RenderPurple` | template_generator.py:10-53 | the loops of `template_gradient_purple` build exactly the page `PurplePage` |
| `TemplateGenerator.PurpleNameShown` | template_generator.py:60 | the `<title>` shows the name, or "Academic Homepage" when it is absent; the heading shows the name or "" |
| `TemplateGenerator.PurpleEmailLink` | template_generator.py:288 | a truthy email gives a `mailto:` link |
| `TemplateGenerator.PurpleWebsiteLink` | template_generator.py:289 | a truthy website gives a link to "https://" + website |
| `TemplateGenerator.PurpleEmptyAsAbsent` | template_generator.py:285-289 | empty title, bio, email and website render exactly like absent ones |
| `TemplateGenerator.PurpleSectionsInOrder` | template_generator.py:14-53 | sections appear in input order |
| `TemplateGenerator.PurpleDispatch` | template_generator.py:15-53 | "timeline" gives each item's timeline entry and "grid-list" each item's card; any other or missing type takes the text-content branch, where an item with a description gets a section of its own under the section title |
| `TemplateGenerator.PurpleTextSectionEmptyIff` | template_generator.py:50-53 | a text-content section renders nothing exactly when none of its items has a description |
| `TemplateGenerator.PurpleChipsEmptyIff` | template_generator.py:38-45 | the tag string, and so the tags `<div>`, is empty exactly when there are no tags |
| `TemplateGenerator.PurpleChipsInOrder` | template_generator.py:38 | tag chips follow the order of the tags |
| `TemplateGenerator.RenderDark` | template_generator.py:299-335 | the loops of `template_dark_minimal` build exactly the page `DarkPage` |
| `TemplateGenerator.DarkNameShown` | template_generator.py:342-450 | the `<title>` and the heading show the name, or "" |
| `TemplateGenerator.DarkEmailLink` | template_generator.py:454 | a truthy email gives a `mailto:` link |
| `TemplateGenerator.DarkWebsiteLink` | template_generator.py:455 | a truthy website gives a link to "https://" + website |
| `TemplateGenerator.DarkSectionsInOrder` | template_generator.py:303-335 | sections appear in input order |
| `TemplateGenerator.DarkDispatch` | template_generator.py:304-335 | the same three-way dispatch as the purple theme, with this theme's markup |
| `TemplateGenerator.DarkTextSectionEmptyIff` | template_generator.py:332-335 | a text-content section renders nothing exactly when none of its items has a description |
| `TemplateGenerator.DarkGridShowsTitleAndDescription` | template_generator.py:321-330 | a grid card is unchanged when everything but title and description is dropped from its item |
| `TemplateGenerator.RenderLight` | template_generator.py:464-482 | the loops of `template_academic_light` build exactly the page `LightPage` |
| `TemplateGenerator.LightMetaIff` | template_generator.py:477 | the meta line "subtitle \| date" is there exactly when subtitle or date is truthy |
| `TemplateGenerator.LightIgnoresType` | template_generator.py:468-482 | pages of résumés that differ only in section types are equal |
| `TemplateGenerator.LightEmailLink` | template_generator.py:580 | a truthy email gives a `mailto:` link showing the address |
| `TemplateGenerator.LightWebsiteLink` | template_generator.py:581 | a truthy website gives a link to "https://" + website showing the website |
| `TemplateGenerator.LightBioAfterContact` | template_generator.py:579-583 | the bio comes after the contact block |
| `TemplateGenerator.LightSectionsInOrder` | template_generator.py:468-482 | sections appear in input order |
| `TemplateGenerator.FileName` | template_generator.py:608 | the file name is 14 characters longer than the id (the "homepage_" prefix and the ".html" suffix); distinct ids give distinct names by `FileNameInjective` |
| `TemplateGenerator.FileNameInjective` | template_generator.py:608 | different ids give different file names |
| `TemplateGenerator.ThemesDistinct` | template_generator.py:599-603 | the three ids, the three display names and the three file names are all different |
| `TemplateGenerator.Names` | template_generator.py:611 | the display names written by the first `k` entries |
| `TemplateGenerator.FileNames` | template_generator.py:608 | the file names written by the first `k` entries |
| `TemplateGenerator.WriteThemes` | template_generator.py:605-614 | every entry's page is written under its file name, and `results` maps each display name to the file name of its last entry |
| `TemplateGenerator.GenerateAllThemes` | template_generator.py:592-614 | a string is decoded first and a dictionary is used as it is; a failed decode raises and writes nothing; otherwise each of the three themes is written |
| `GradioApp.GenerateHtml` | gradio_app.py:175-243 | the nested loops of `generate_html` build exactly the page `AppPage` |
| `GradioApp.AppDispatch` | gradio_app.py:181-243 | "timeline" and "grid-list" get their containers; every other type, and a missing one, gets the text container |
| `GradioApp.AppTextParagraphs` | gradio_app.py:232-243 | a text section holds one paragraph per item, in item order |
| `GradioApp.AppParagraphMissing` | gradio_app.py:235 | an item without a description gives an empty `<p></p>` |
| `GradioApp.AppTextEmptyIff` | gradio_app.py:233-235 | the paragraphs are empty only when the section has no items |
| `GradioApp.AppItemFieldsAlways` | gradio_app.py:193-219 | timeline entries and grid cards always print subtitle, date and description, "" when missing |
| `GradioApp.AppTagsAlways` | gradio_app.py:213-220 | every grid card has its tags `<div>`, empty when there are no tags |
| `GradioApp.AppChipsInOrder` | gradio_app.py:213 | tag chips follow the order of the tags |
| `GradioApp.AppHeaderShown` | gradio_app.py:252-455 | the `<title>` falls back to "學術主頁" only when the name is absent; heading, title and bio lines are always there |
| `GradioApp.AppContactLinks` | gradio_app.py:457-458 | the email link shows the address; the website link uses the website verbatim as its href |
| `GradioApp.AppEmptyAsAbsent` | gradio_app.py:454-458 | empty title, bio, email and website render exactly like absent ones |
| `GradioApp.AppSectionsInOrder` | gradio_app.py:180-243 | sections appear in input order |
| `GradioV2.RenderTech` | gradio_v2_app.py:20-35 | the loops of `template_dark_tech` build exactly `TechPage` |
| `GradioV2.RenderPurple` | gradio_v2_app.py:74-89 | the loops of `template_gradient_purple` build exactly `PurplePage` |
| `GradioV2.RenderMinimal` | gradio_v2_app.py:129-146 | the loops of `template_academic_minimal` build exactly `MinimalPage` |
| `GradioV2.RenderNeon` | gradio_v2_app.py:185-200 | the loops of `template_neon_cyber` build exactly `NeonPage` |
| `GradioV2.SectionTypeIgnored` | gradio_v2_app.py:23-35 | no section function reads the section type |
| `GradioV2.TechIgnoresType` | gradio_v2_app.py:23-35 | retyping every section, or dropping the types, leaves the dark tech page unchanged |
| `GradioV2.PurpleIgnoresType` | gradio_v2_app.py:77-89 | the same for the gradient purple page |
| `GradioV2.MinimalIgnoresType` | gradio_v2_app.py:132-146 | the same for the academic minimal page |
| `GradioV2.NeonIgnoresType` | gradio_v2_app.py:188-200 | the same for the neon cyber page |
| `GradioV2.TechItemFields` | gradio_v2_app.py:29-34 | the description paragraph is there exactly when the description is truthy; subtitle and date are always printed |
| `GradioV2.PurpleCardFields` | gradio_v2_app.py:83-88 | the same for the purple card, whose date is a `<span>` |
| `GradioV2.MinimalEntryFields` | gradio_v2_app.py:138-145 | the same for the minimal entry, whose date column precedes the title |
| `GradioV2.NeonHeadingPrompt` | gradio_v2_app.py:200 | every neon section heading is "&gt; " + title |
| `GradioV2.TechContactLinks` | gradio_v2_app.py:64-65 | truthy email and website give links; the website link goes to "https://" + website |
| `GradioV2.PurpleContactLinks` | gradio_v2_app.py:119-120 | the same, with the address and the website as link texts |
| `GradioV2.MinimalContactLinks` | gradio_v2_app.py:175-176 | the same for the academic minimal page |
| `GradioV2.NeonContactLinks` | gradio_v2_app.py:228-229 | the same for the neon page |
| `GradioV2.ContactOmitted` | gradio_v2_app.py:64-229 | in all four templates (tech 64-65, purple 119-120, minimal 175-176, neon 228-229) an empty email and website give the same page as absent ones |
| `GradioV2.MinimalBioAfterContact` | gradio_v2_app.py:174-178 | the bio comes after the contact block |
| `GradioV2.SectionsInOrder` | gradio_v2_app.py:188-200 | sections appear in input order in the dark tech and neon pages |
| `GradioV2.SectionsInOrderPurpleMinimal` | gradio_v2_app.py:132-146 | sections appear in input order in the purple and minimal pages |
| `GradioV2.Lookup` | gradio_v2_app.py:392 | `TEMPLATES[choice]` fails exactly when no label is the choice, and otherwise returns an entry whose label is the choice |
| `GradioV2.TemplatesDistinct` | gradio_v2_app.py:237-242 | there are four templates with four different labels |
| `GradioV2.LookupFinds` | gradio_v2_app.py:237-242 | with distinct labels, a label selects exactly its own entry |
| `GradioV2.UpdateInfoShows` | gradio_v2_app.py:391-392 | every label shows its own description in bold |
| `GradioV2.UpdateInfoUnknown` | gradio_v2_app.py:391-392 | any other choice raises |
| `GradioV2.Readme` | gradio_v2_app.py:318-324 | the README opens with "# <name> Homepage", name defaulting to "" |
| `GradioAdvanced.BilingualTitles` | gradio_advanced_app.py:24-41 | the zh entry keeps the raw title; the en entry falls back to "Researcher" when the title is missing or empty; the other fields are shared |
| `GradioAdvanced.GenerateAdvanced` | gradio_advanced_app.py:44-70 | the `enumerate` loop builds exactly `AdvPage` |
| `GradioAdvanced.AdvIgnoresType` | gradio_advanced_app.py:45-70 | the section type is read but never used |
| `GradioAdvanced.SectionAnchored` | gradio_advanced_app.py:63-70 | section `i` holds `id="section-i"` and its items, in order |
| `GradioAdvanced.AdvItemFields` | gradio_advanced_app.py:52-61 | every item of section `i` carries `data-aos-delay="i*100"`; the description appears exactly when truthy |
| `GradioAdvanced.AnchorsDistinct` | gradio_advanced_app.py:53-64 | different sections get different anchors and different delays |
| `GradioAdvanced.AdvHeader` | gradio_advanced_app.py:361 | the typewriter shows the en title of `bilingual_data`; the `<title>` falls back to "Academic Homepage" |
| `GradioAdvanced.AdvContactButtons` | gradio_advanced_app.py:364-365 | truthy email and website give buttons; the website button goes to "https://" + website |
| `GradioAdvanced.AdvEmptyAsAbsent` | gradio_advanced_app.py:364-365 | empty email and website render like absent ones |
| `GradioAdvanced.AdvSectionsInOrder` | gradio_advanced_app.py:44-70 | sections appear in input order |
| `GradioAdvanced.RepoNameShape` | gradio_advanced_app.py:491 | the repository name has no spaces and no capitals, and is no longer than the name |
| `GradioAdvanced.RepoNameFixes` | gradio_advanced_app.py:491 | deriving the name twice changes nothing; without a name it is "username" |
| `GradioAdvanced.AdvReadmeShape` | gradio_advanced_app.py:486-491 | the README opens with "# <name or Academic> Homepage" and suggests "`<repo name>.github.io`" |
| `Schema.ParseType` | lib/schema.ts:28-33 | a parsed section type names itself |
| `Schema.SectionTypeNames` | lib/schema.ts:28-33 | a section type is exactly one of the four names, and each name parses to its own type |
| `Schema.TypeNameInjective` | lib/schema.ts:28-33 | different types have different names |
| `Schema.ParseStyle` | lib/schema.ts:46 | a parsed style names itself |
| `Schema.ParseLayout` | lib/schema.ts:49 | a parsed layout names itself |
| `Schema.ThemeNames` | lib/schema.ts:46-49 | the style is one of four names and the layout one of three |
| `Schema.ParseAll` | lib/schema.ts:40 | an array is accepted exactly when every element is, element by element |
| `Schema.AsRecord` | lib/schema.ts:24 | a value is accepted as a record exactly when it is an object whose values are all strings; the record then has the object's keys, each with its string |
| `Schema.ParseAllMapAll` | lib/schema.ts:40 | an array written element by element reads back when each element does |
| `Schema.SocialRoundTrip` | lib/schema.ts:8-12 | a valid social link written as JSON reads back unchanged |
| `Schema.ItemTextRoundTrip` | lib/schema.ts:16-20 | an item's text fields read back unchanged |
| `Schema.ItemExtrasRoundTrip` | lib/schema.ts:21-24 | a valid item's tags, link, image and metadata read back unchanged |
| `Schema.ItemRoundTrip` | lib/schema.ts:15-25 | a valid item reads back unchanged |
| `Schema.RecordRoundTrip` | lib/schema.ts:24 | a string record reads back unchanged |
| `Schema.SectionRoundTrip` | lib/schema.ts:36-42 | a valid section reads back unchanged |
| `Schema.ThemeRoundTrip` | lib/schema.ts:45-50 | a theme reads back unchanged |
| `Schema.BasicsTextRoundTrip` | lib/schema.ts:56-60 | valid basics' name, label, bio and email read back unchanged |
| `Schema.BasicsLinksRoundTrip` | lib/schema.ts:59-62 | valid basics' avatar, website and socials read back unchanged |
| `Schema.BasicsRoundTrip` | lib/schema.ts:55-63 | valid basics read back unchanged |
| `Schema.ProfileRoundTrip` | lib/schema.ts:53-70 | a valid profile written as JSON reads back unchanged |
| `Schema.ParsedItemValid` | lib/schema.ts:22-23 | an accepted item passes the URL checks |
| `Schema.ParsedBasicsValid` | lib/schema.ts:59-62 | accepted basics pass the URL and email checks |
| `Schema.ParsedProfileValid` | lib/schema.ts:53-70 | an accepted profile passes every format check |
| `Schema.ItemNeedsOnlyTitle` | lib/schema.ts:15-25 | an object holding only a string title is an item with every other field absent |
| `Schema.ItemTitleRequired` | lib/schema.ts:17 | an item without a string title is refused |
| `Schema.SectionFieldsRequired` | lib/schema.ts:37-40 | a section without id, type, title or items is refused |
| `Schema.SectionOrderOptional` | lib/schema.ts:41 | a section without `order` is written without the key and reads back |
| `Schema.BasicsFieldsRequired` | lib/schema.ts:56-60 | basics without name, label, bio or email are refused |
| `Schema.SocialFieldsRequired` | lib/schema.ts:9-10 | a social link without platform or url is refused |
| `Schema.ThemeStyleRequired` | lib/schema.ts:46-69 | a present theme without a string style makes the profile refused |
| `Schema.ItemReadsOnlyItsKeys` | lib/schema.ts:15-25 | objects that agree on the nine item keys parse to the same item: other keys are dropped |
| `Schema.ItemTextReadsKeys` | lib/schema.ts:16-20 | the text fields depend on the item keys only |
| `Schema.ItemExtrasReadsKeys` | lib/schema.ts:21-24 | the other fields depend on the item keys only |
| `ParseResume.NoImagesFirst` | app/actions/parseResume.ts:34-39 | missing or empty images fail with "No images provided…" whatever the key, provider and model |
| `ParseResume.KeyRequiredNext` | app/actions/parseResume.ts:41-46 | with images, a missing or blank key fails with "API key is required." |
| `ParseResume.KeyPrefixChecked` | app/actions/parseResume.ts:49-61 | an openai key must start with "sk-" and a gemini key with "AIzaSy", checked on the untrimmed key |
| `ParseResume.UntrimmedKeyRefused` | app/actions/parseResume.ts:41-54 | the openai key " sk-1" passes the blank check and fails the prefix check |
| `ParseResume.UnsupportedProvider` | app/actions/parseResume.ts:178-183 | any other provider passes the prefix checks and fails as unsupported, without a model call |
| `ParseResume.NoCallNoDependence` | app/actions/parseResume.ts:34-183 | when the model is not called, the result does not depend on what the call would give, and is a failure |
| `ParseResume.SuccessOnlyWithData` | app/actions/parseResume.ts:185-188 | success holds exactly when the model is called and returns; then the data is its object and there is no error; otherwise there is an error and no data |
| `ParseResume.ClassifyFirstMatch` | app/actions/parseResume.ts:193-222 | the first matching rule decides: API key, rate limit, quota, billing, else "Parsing failed: " + message |
| `ParseResume.InsufficientQuotaIsQuota` | app/actions/parseResume.ts:206 | a message containing "insufficient_quota" contains "quota" |
| `ParseResume.NonErrorUnknown` | app/actions/parseResume.ts:225-228 | a thrown value that is not an `Error` gives the fixed unknown-error message |
| `ParseResume.OtherErrorsPassedOn` | app/actions/parseResume.ts:219-222 | a message no rule matches is passed on after "Parsing failed: " |
| `SectionRenderer.Dispatch` | components/builder/SectionRenderer.tsx:19-36 | a type name finds no layout exactly when it is none of the four names |
| `SectionRenderer.DispatchExact` | components/builder/SectionRenderer.tsx:19-30 | each layout is chosen for exactly one type name |
| `SectionRenderer.UnknownTypeRendersNothing` | components/builder/SectionRenderer.tsx:32-35 | an unknown type renders nothing, with no fallback layout |
| `SectionRenderer.RenderPassesProps` | components/builder/SectionRenderer.tsx:21-30 | every schema type has its layout, which gets the section and the index unchanged |
| `SectionRenderer.LayoutsDistinct` | components/builder/SectionRenderer.tsx:19-30 | different types get different layouts |
| `SectionRenderer.LayoutOnlyByType` | components/builder/SectionRenderer.tsx:19 | the layout depends on the type alone |
| `PageBuilder.Insert` | components/builder/PageBuilder.tsx:19-21 | inserting adds exactly the one section |
| `PageBuilder.SortSections` | components/builder/PageBuilder.tsx:19 | the sorted sections are a permutation of the sections |
| `PageBuilder.InsertBounded` | components/builder/PageBuilder.tsx:20 | inserting keeps a lower bound on the keys |
| `PageBuilder.InsertSorted` | components/builder/PageBuilder.tsx:19-21 | inserting into a sorted list keeps it sorted |
| `PageBuilder.ConsSorted` | components/builder/PageBuilder.tsx:20 | a head no larger than the rest extends a sorted list |
| `PageBuilder.SortedSectionsAscend` | components/builder/PageBuilder.tsx:19-21 | the sorted sections are non-decreasing in `order ?? 999` |
| `PageBuilder.WithKeyAppend` | components/builder/PageBuilder.tsx:20 | selecting by key works piecewise over a concatenation |
| `PageBuilder.InsertStable` | components/builder/PageBuilder.tsx:20 | inserting puts the section before the equal-keyed sections that were already sorted |
| `PageBuilder.SortIsStable` | components/builder/PageBuilder.tsx:20 | ties keep their input order: the sections of each key come out in input order |
| `PageBuilder.UnorderedAfterOrdered` | components/builder/PageBuilder.tsx:20 | a section without an order comes after every section whose order is below 999 |
| `PageBuilder.UnorderedLast` | components/builder/PageBuilder.tsx:20 | the same, for any sorted list |
| `PageBuilder.SectionsBySortedPosition` | components/builder/PageBuilder.tsx:135-137 | each sorted section is rendered once, in sorted order, with its sorted position as its index |
| `PageBuilder.HeaderPresence` | components/builder/PageBuilder.tsx:35-127 | avatar and website appear exactly when truthy; socials exactly when present and non-empty, one link per social in order; the email link always, to "mailto:" + email |
| `PageBuilder.FooterNamesTheme` | components/builder/PageBuilder.tsx:143 | the footer names the theme style, or "default" without a theme |
| `GridList.TagsCapped` | components/builder/GridListSection.tsx:83-95 | the first five tags at most are shown, in order; with five or fewer every tag is shown and there is no counter; with more, the counter is "+" and the number hidden |
| `GridList.OverflowCounts` | components/builder/GridListSection.tsx:91-95 | the counter's number plus the tags shown is the number of tags |
| `GridList.TagsOmitted` | components/builder/GridListSection.tsx:81 | the tags block is left out exactly when the tags are absent or empty |
| `GridList.CardFields` | components/builder/GridListSection.tsx:33-123 | the title always appears; image, subtitle, date, description and link appear exactly when truthy; the key is the id when truthy, else the position |
| `GridList.MetaFields` | components/builder/GridListSection.tsx:100-110 | the metadata strip appears exactly when there is at least one key; citations and type appear exactly when present and non-empty |
| `GridList.OtherMetadataDrawsEmptyStrip` | components/builder/GridListSection.tsx:100-110 | metadata with only other keys still draws an empty strip |
| `GridList.CardsInItemOrder` | components/builder/GridListSection.tsx:25-31 | one card per item, in item order, under the section title |
| `GridList.IndexOnlyAnimates` | components/builder/GridListSection.tsx:21 | the section's index changes nothing shown |

## Left out

- Vendor calls are left out. The Gemini and OpenAI SDKs, `generateObject` and the prompts are network calls. The reply text, or the exception a call raises, is a parameter.
- PDF rasterisation, image encoding, file writes, `shutil`, `zipfile` and `os.walk` are left out: they are I/O. `generate_all_themes` returns the files it would write as a map.
- The Gradio and React UI shells, `process_*`, `app/page.tsx` and `electron/main.js` are left out.
- The timeline, text-content and gallery layout components are left out. They are only named, as the layouts the dispatcher picks.
- `<style>` and `<script>` contents, including the inline page JavaScript of the advanced template, are opaque constants.
- `json.loads` is a parameter. zod's `.url()` and `.email()` are the functions of a `Formats` parameter.
- Non-string values in string slots of the Python dictionary are left out: the model treats every field as a string or absent. In Python a number would be printed with `str`, and `None` as "None".
- `GradioAdvanced.RepoNameShape`: `lower()` is modelled on ASCII capitals only. Python lowers every cased Unicode letter, so the model's repository name is exact for ASCII names only.
- The sort keys are exact reals. JavaScript numbers are doubles, and an `order` of `Infinity` or `NaN` is not modelled.
- The JavaScript rendering of the overflow count is decimal digits for a natural number, which is what `length - 5` is there.
- React `key` props of sections and social links, animation delays (`index * 0.1`, `itemIndex * 0.05`), class names and motion settings are left out. Only the card key is kept.
- Logging is left out: the `print` of the written files in `generate_all_themes`, `console.error` in `parseResumeAction`, and `console.warn` on an unknown section type.
- `PageBuilder.Insert`: the source calls `Array.prototype.sort`. The model sorts by insertion, a stable sort with the same result, because ECMAScript 2019 requires `sort` to be stable. No other sorting algorithm is modelled.

Behaviour of the code worth noting:

- no template escapes interpolated text;
- the `gradio_app.py` website link is not prefixed with "https://";
- the v2 and advanced OpenAI parsers only recognise a "```json" fence;
- an unknown section type renders nothing in the React builder.
