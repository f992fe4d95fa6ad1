# Sigle public story page: serialization rules and page metadata

This project models the logic of the public story page of Sigle, a blogging
application whose stories live in each author's own storage bucket. The page
(`client/modules/publicStory/PublicStory.tsx`) does two things that hold logic:

- It serializes a stored Slate rich-text document to HTML with a table of three
  rules. There is one rule each for block, mark and inline nodes. Each rule
  switches on the node's `type` and answers with one element or with nothing.
- It derives the page metadata and layout from the story record. That covers
  the canonical URL, the SEO title and description, the Open Graph image, the
  Twitter card kind, the share links, and which page blocks appear.

Both parts are pure, so the model is made of datatypes, functions and lemmas:

- `Wrappers` (`wrappers.dfy`): `Option`, standing for a JavaScript value that
  may be `null` or `undefined`.
- `SlateRules` (`slate_rules.dfy`): document nodes, output fragments, the three
  rules, their disjointness, and rendering of trees built only from known types.
- `StoryPage` (`story_page.dfy`): the story record, JavaScript `||` truthiness,
  the head tags, and the page layout.

Two JavaScript behaviours are written out explicitly:

- `a || b` treats `null`, `undefined` and `""` alike (`Truthy`, `Or`).
- A JSX attribute whose value is `undefined` (here, `data.get(key)` on a missing
  key) renders no attribute at all (`Pick`).

Three consequences of the code that the model keeps:

- The paragraph rule copies `className` from the node data (PublicStory.tsx:149),
  so `Emitted` allows `className` on `p`.
- `JSON.parse` and `Value.fromJSON` are called without a guard (PublicStory.tsx:221),
  so content that does not parse is not contained. The model leaves parsing to the
  `render` parameter and claims nothing about it.
- The rules answer nothing for a node outside the table (PublicStory.tsx:146-195).
  How the serializer then treats such a node is not visible in the source, and the
  model claims no more than the rules' silence.

## Model

| member | source | states |
|---|---|---|
| `SlateRules.Pick` | client/modules/publicStory/PublicStory.tsx:149-154 | an attribute filled from `data.get(key)` is present exactly when the data has the key, with the data's value, and no other attribute appears |
| `SlateRules.SerializeBlock` | client/modules/publicStory/PublicStory.tsx:145-169 | the block rule answers exactly for a block whose type is one of the nine known types. It gives that type's element: paragraph→p carrying `className`, block-quote→blockquote, list-item→li, numbered-list→ol, bulleted-list→ul, heading-one/two/three→h1/h2/h3, each wrapping the given children. An image gives an `img` whose `src` is the data's `src`, with no children, ignoring the children passed in |
| `SlateRules.SerializeMark` | client/modules/publicStory/PublicStory.tsx:172-183 | the mark rule answers exactly for a mark of type bold, italic or underlined, with strong, em or u wrapping the children and no attributes |
| `SlateRules.SerializeInline` | client/modules/publicStory/PublicStory.tsx:186-194 | the inline rule answers exactly for an inline of type link, with an `a` whose `href` is the data's `href`, wrapping the children |
| `SlateRules.RulesDisjoint` | client/modules/publicStory/PublicStory.tsx:143-196 | a rule answers only for its own `object` kind and only when the kind/type pair is in the table, with the element the table names; the owning rule always answers for a pair in the table |
| `SlateRules.FirstAnswerIsOwner` | client/modules/publicStory/PublicStory.tsx:143-196 | consulting any list of the rules in order gives exactly the owning rule's answer when that rule is in the list, and nothing otherwise |
| `SlateRules.OrderIrrelevant` | client/modules/publicStory/PublicStory.tsx:143-196 | two lists holding the same rules answer every node identically, so the order of the `rules` array does not matter |
| `SlateRules.RulesAnswerTable` | client/modules/publicStory/PublicStory.tsx:143-198 | the `rules` array answers a node exactly when its kind/type pair is in the table, with the table's fragment; for a pair outside the table every rule answers nothing |
| `SlateRules.Render` | client/modules/publicStory/PublicStory.tsx:143-198 | rendering a tree of known types works children first: a text leaf gives `leaf` of its text, and any other node gives exactly the element its rule names over the rendered children, carrying the data attribute (`className`, `src` or `href`) when the data has it, and with no children for `img`. The whole output uses only the emitted elements and attributes (p[className], blockquote, img[src] with no children, li, ol, ul, h1-h3, strong, em, u, a[href]) |
| `SlateRules.RenderAll` | client/modules/publicStory/PublicStory.tsx:143-198 | sibling nodes render one fragment each, in order: the fragment at each position is the rendering of the node at that position, and each is built only from the emitted elements and attributes |
| `SlateRules.RenderParagraphWithLink` | client/modules/publicStory/PublicStory.tsx:146-191 | a paragraph without `className` data holding "Bye" and a link to `http://x` renders as a `p` with no attributes around the text and an `a` whose `href` is `http://x` |
| `SlateRules.RenderHeading` | client/modules/publicStory/PublicStory.tsx:146-162 | a heading-one holding "Hi" renders as an `h1` with no attributes around the text |
| `SlateRules.RenderHeadingAndParagraph` | client/modules/publicStory/PublicStory.tsx:146-191 | a heading-one holding "Hi" followed by a paragraph holding "Bye" and a link to `http://x` renders as h1("Hi"), then p("Bye", a[href=http://x]) |
| `StoryPage.Or` | client/modules/publicStory/PublicStory.tsx:227-229 | the JavaScript or-operator on a possibly missing string gives `a` when it is a non-empty string, `b` when `a` is empty, `null` or `undefined` |
| `StoryPage.Headline` | client/modules/publicStory/PublicStory.tsx:227 | the headline is the meta title unless that is empty or missing, then the title |
| `StoryPage.Byline` | client/modules/publicStory/PublicStory.tsx:227-228 | the byline is the user's name unless that is empty or missing, then the username |
| `StoryPage.SeoTitle` | client/modules/publicStory/PublicStory.tsx:227-228 | in each of the four cases of meta title and name being present or not, the title is the chosen headline, the chosen byline and the site name Sigle, joined by a vertical bar with a space on each side |
| `StoryPage.SeoTitleParts` | client/modules/publicStory/PublicStory.tsx:227-228 | when neither headline nor byline contains a vertical bar, splitting the SEO title at the bar recovers exactly the headline, the byline and "Sigle" (each with its separating spaces) |
| `StoryPage.SeoUrl` | client/modules/publicStory/PublicStory.tsx:226 | the canonical URL extends the application URL; when username and id contain no `/`, splitting it at `/` gives the application URL's segments followed by the username and the story id |
| `StoryPage.MetaDescription` | client/modules/publicStory/PublicStory.tsx:229-244 | the description is the meta description if non-empty, else the excerpt if non-empty; it is the empty string exactly when neither is present |
| `StoryPage.OgImage` | client/modules/publicStory/PublicStory.tsx:245-252 | `og:image` is the cover image URL when there is one, else `appUrl + "/static/android-chrome-192x192.png"` |
| `StoryPage.TwitterCard` | client/modules/publicStory/PublicStory.tsx:253-257 | `twitter:card` is `summary_large_image` exactly when a cover image is present and `summary` exactly when not |
| `StoryPage.PageHead` | client/modules/publicStory/PublicStory.tsx:237-258 | `<title>` and `og:title` are the SEO title, the description and `og:description` are the same value, `og:url` is the canonical URL, `og:type`/`og:site_name`/`twitter:site` are website/Sigle/@sigleapp, and `og:image` and `twitter:card` follow the cover choice |
| `StoryPage.TwitterShareText` | client/modules/publicStory/PublicStory.tsx:231-233 | the share text before encoding starts with the headline, continues with a vertical bar and the handle @sigleapp, and ends with the canonical URL |
| `StoryPage.SanitizedContent` | client/modules/publicStory/PublicStory.tsx:217-224 | a rendered body exists exactly when the content is a non-empty string, and is then the rendering of that content |
| `StoryPage.DateBlock` | client/modules/publicStory/PublicStory.tsx:259-261 | the date line appears exactly when `createdAt` is set, carrying that date |
| `StoryPage.CoverBlock` | client/modules/publicStory/PublicStory.tsx:273-278 | below the profile there is the cover image exactly when there is one, and a divider exactly when there is none |
| `StoryPage.ContentBlock` | client/modules/publicStory/PublicStory.tsx:279-285 | the content block appears exactly when the content is present and renders to a non-empty string |
| `StoryPage.SocialBlock` | client/modules/publicStory/PublicStory.tsx:286-299 | the Facebook link is the sharer address followed by the canonical URL, which begins with the application URL and, when username and id contain no `/`, ends in the segments username and id; the Twitter link is the tweet-intent address followed by the encoded share text |
| `StoryPage.Layout` | client/modules/publicStory/PublicStory.tsx:259-313 | the page always shows the title and the share links, and ends with the author footer |
| `StoryPage.LayoutOptionalBlocks` | client/modules/publicStory/PublicStory.tsx:259-285 | on the whole page, a date line appears exactly when `createdAt` is set, a cover exactly when a cover image is set, and a body exactly when the content is present and renders non-empty |
| `StoryPage.LayoutDividers` | client/modules/publicStory/PublicStory.tsx:273-300 | the page has two dividers without a cover image and one with it |
| `StoryPage.CoverChoicesComplementary` | client/modules/publicStory/PublicStory.tsx:245-278 | the large Twitter card, a cover block on the page and a single divider all go together; with the large card `og:image` is the cover, with `summary` it is the site icon |

## Left out

- The traversal of `slate-html-serializer` and `Value.fromJSON`/`JSON.parse` (PublicStory.tsx:198, 221) are library code that is not shown. That includes how text leaves and nodes outside the table are emitted. The model renders only trees of known types, and leaves text leaves to the parameter `leaf`.
- In Slate, marks decorate text leaves rather than holding children. The model gives a `Mark` node children, which stand for the text the mark rule wraps.
- Node data is modelled as a map from strings to strings. Non-string data values are not modelled.
- The HTML string that React produces from a fragment, including attribute escaping, is not modelled. Fragments are compared as trees.
- DOMPurify sanitization and its jsdom setup (PublicStory.tsx:14-21, 220) depend on a foreign library whose allow-list is not visible. Sanitization is part of the `render` parameter.
- `date-fns` `format` (PublicStory.tsx:260) is not modelled. The date line carries the raw `createdAt`.
- `encodeURI` (PublicStory.tsx:231) is the parameter `encode`.
- Styling, the React and styled-components markup beyond which blocks appear, and the Relay fragment (PublicStory.tsx:23-141, 317-337) are presentation and transport.
- The feed endpoint `src/pages-lib/api/feed/[username].ts` is not part of this model. Its profile lookup, bucket fetches and schema migrations call code that is not available.
- `src/modules/editor/components/StorySettings.tsx` is form wiring for the settings dialog, and `client/models/PrivateStory.ts` is a declarative schema. Neither holds logic of its own, so neither is part of this model.
- `SeoTitleParts`, `SeoUrl`, `SocialBlock`: the read-back holds only when the parts contain no separator. A `|` in a title or a `/` in a username makes the string ambiguous, and the source does nothing about it.
