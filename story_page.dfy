/**
 * The metadata and layout choices of the public story page: the canonical URL,
 * the SEO title and description, the Open Graph and Twitter card values, the
 * share links, and which blocks of the page appear for a given story.
 */
module StoryPage {
  import opened Wrappers

  datatype User = User(username: string, name: Option<string>, imageUrl: string)

  /** The story fields the page reads. Nullable fields are `Option`s. */
  datatype Story = Story(
    id: string,
    title: string,
    content: Option<string>,
    coverImageUrl: Option<string>,
    createdAt: Option<string>,
    metaTitle: Option<string>,
    metaDescription: Option<string>,
    excerpt: Option<string>,
    user: User)

  /** JavaScript truthiness of a string that may be `null` or `undefined`: the empty string is falsy. */
  predicate Truthy(o: Option<string>)
  {
    o.Some? && o.value != ""
  }

  /** JavaScript `a || b` where `b` is a string. */
  function Or(a: Option<string>, b: string): (r: string)
    ensures Truthy(a) ==> r == a.value
    ensures !Truthy(a) ==> r == b
  {
    if Truthy(a) then a.value else b
  }

  const SiteName: string := "Sigle"
  const TwitterHandle: string := "@sigleapp"
  const FallbackIconPath: string := "/static/android-chrome-192x192.png"

  /** The canonical story URL `appUrl/username/id`. It starts with the application URL
      and ends with the two path segments the page is routed by: when neither the username
      nor the id holds a slash, splitting it at `/` gives the application URL's segments
      followed by the username and the story id. */
  function SeoUrl(appUrl: string, s: Story): (r: string)
    ensures |appUrl| < |r| && r[..|appUrl|] == appUrl
    ensures '/' !in s.user.username && '/' !in s.id ==>
              Split(r, '/') == Split(appUrl, '/') + [s.user.username, s.id]
  {
    var u, i := s.user.username, s.id;
    var r := appUrl + "/" + u + "/" + i;
    assert r == appUrl + ['/'] + (u + ['/'] + i);
    assert '/' !in u && '/' !in i ==> Split(r, '/') == Split(appUrl, '/') + [u, i] by {
      if '/' !in u && '/' !in i {
        SplitJoin(appUrl, u + ['/'] + i, '/');
        SplitJoin(u, i, '/');
        SplitWithoutSeparator(u, '/');
        SplitWithoutSeparator(i, '/');
      }
    }
    r
  }

  /** The story's headline: its meta title unless that is empty or missing, then its title. */
  function Headline(s: Story): (r: string)
    ensures Truthy(s.metaTitle) ==> r == s.metaTitle.value
    ensures !Truthy(s.metaTitle) ==> r == s.title
  {
    Or(s.metaTitle, s.title)
  }

  /** The author's byline: the display name unless that is empty or missing, then the username. */
  function Byline(s: Story): (r: string)
    ensures Truthy(s.user.name) ==> r == s.user.name.value
    ensures !Truthy(s.user.name) ==> r == s.user.username
  {
    Or(s.user.name, s.user.username)
  }

  /** The `<title>` (and `og:title`): headline, byline and site name separated by " | ". */
  function SeoTitle(s: Story): (r: string)
    ensures Truthy(s.metaTitle) && Truthy(s.user.name) ==>
              r == s.metaTitle.value + " | " + s.user.name.value + " | Sigle"
    ensures Truthy(s.metaTitle) && !Truthy(s.user.name) ==>
              r == s.metaTitle.value + " | " + s.user.username + " | Sigle"
    ensures !Truthy(s.metaTitle) && Truthy(s.user.name) ==>
              r == s.title + " | " + s.user.name.value + " | Sigle"
    ensures !Truthy(s.metaTitle) && !Truthy(s.user.name) ==>
              r == s.title + " | " + s.user.username + " | Sigle"
  {
    Headline(s) + " | " + Byline(s) + " | " + SiteName
  }

  /** The meta description (and `og:description`): the meta description, else the
      excerpt, else the empty string (`(metaDescription || excerpt) || ''`). */
  function MetaDescription(s: Story): (r: string)
    ensures Truthy(s.metaDescription) ==> r == s.metaDescription.value
    ensures !Truthy(s.metaDescription) && Truthy(s.excerpt) ==> r == s.excerpt.value
    ensures r == "" <==> !Truthy(s.metaDescription) && !Truthy(s.excerpt)
  {
    var seoDescription := if Truthy(s.metaDescription) then s.metaDescription else s.excerpt;
    Or(seoDescription, "")
  }

  /** The `og:image`: the cover image if there is one, else the site icon. */
  function OgImage(appUrl: string, s: Story): (r: string)
    ensures Truthy(s.coverImageUrl) ==> r == s.coverImageUrl.value
    ensures !Truthy(s.coverImageUrl) ==> r == appUrl + "/static/android-chrome-192x192.png"
  {
    Or(s.coverImageUrl, appUrl + FallbackIconPath)
  }

  /** The `twitter:card` kind: a large image card exactly when there is a cover image. */
  function TwitterCard(s: Story): (r: string)
    ensures r == "summary_large_image" <==> Truthy(s.coverImageUrl)
    ensures r == "summary" <==> !Truthy(s.coverImageUrl)
  {
    if Truthy(s.coverImageUrl) then "summary_large_image" else "summary"
  }

  /** The tags of the document head. */
  datatype Head = Head(
    title: string,
    description: string,
    ogType: string,
    ogSiteName: string,
    ogUrl: string,
    ogTitle: string,
    ogDescription: string,
    ogImage: string,
    twitterSite: string,
    twitterCard: string)

  function PageHead(appUrl: string, s: Story): (h: Head)
    ensures h.title == h.ogTitle == SeoTitle(s)
    ensures h.description == h.ogDescription == MetaDescription(s)
    ensures h.ogUrl == SeoUrl(appUrl, s)
    ensures h.ogType == "website" && h.ogSiteName == "Sigle" && h.twitterSite == "@sigleapp"
    ensures h.ogImage == OgImage(appUrl, s) && h.twitterCard == TwitterCard(s)
  {
    var title := SeoTitle(s);
    var description := MetaDescription(s);
    Head(title, description, "website", SiteName, SeoUrl(appUrl, s), title, description,
         OgImage(appUrl, s), TwitterHandle, TwitterCard(s))
  }

  /** The Twitter share text before URI encoding: it opens with the headline, names the
      site's handle and ends with the canonical URL, so the tweet links back to the story. */
  function TwitterShareText(appUrl: string, s: Story): (r: string)
    ensures |r| == |Headline(s)| + |" | @sigleapp "| + |SeoUrl(appUrl, s)|
    ensures r[..|Headline(s)|] == Headline(s)
    ensures r[|Headline(s)|..|r| - |SeoUrl(appUrl, s)|] == " | @sigleapp "
    ensures r[|r| - |SeoUrl(appUrl, s)|..] == SeoUrl(appUrl, s)
  {
    Headline(s) + " | " + TwitterHandle + " " + SeoUrl(appUrl, s)
  }

  /** The blocks of the story page, in order. */
  datatype Section =
    | DateLine(createdAt: string)
    | Title(text: string)
    | Profile(username: string, name: Option<string>, imageUrl: string)
    | Divider
    | Cover(src: string)
    | Content(html: string)
    | Social(facebookHref: string, twitterHref: string)
    | About
    | Footer(username: string, name: Option<string>, imageUrl: string)

  /** The rendered body: `content && sanitize(serialize(parse(content)))`. The parameter
      `render` stands for that pipeline: parsing the stored JSON into a document, rendering
      its nodes with the rule table (`SlateRules.RenderAll`), printing the fragments as HTML
      and sanitizing the result. */
  function SanitizedContent(content: Option<string>, render: string -> string): (r: Option<string>)
    ensures r.Some? <==> Truthy(content)
    ensures r.Some? ==> r.value == render(content.value)
  {
    if Truthy(content) then Some(render(content.value)) else None
  }

  /** The date line, shown only when the story has a creation date. */
  function DateBlock(s: Story): (r: seq<Section>)
    ensures forall d :: DateLine(d) in r <==> Truthy(s.createdAt) && d == s.createdAt.value
    ensures forall x | x in r :: x.DateLine?
  {
    if Truthy(s.createdAt) then [DateLine(s.createdAt.value)] else []
  }

  /** Between the profile and the body: a divider without a cover image, the cover with one. */
  function CoverBlock(s: Story): (r: seq<Section>)
    ensures forall c :: Cover(c) in r <==> Truthy(s.coverImageUrl) && c == s.coverImageUrl.value
    ensures multiset(r)[Divider] == if Truthy(s.coverImageUrl) then 0 else 1
    ensures forall x | x in r :: x.Cover? || x.Divider?
  {
    (if !Truthy(s.coverImageUrl) then [Divider] else [])
    + (if Truthy(s.coverImageUrl) then [Cover(s.coverImageUrl.value)] else [])
  }

  /** The story body, shown only when the sanitized content is a non-empty string. */
  function ContentBlock(s: Story, render: string -> string): (r: seq<Section>)
    ensures forall h :: Content(h) in r <==> Truthy(s.content) && h == render(s.content.value) && h != ""
    ensures forall x | x in r :: x.Content?
  {
    var body := SanitizedContent(s.content, render);
    if Truthy(body) then [Content(body.value)] else []
  }

  const FacebookSharer: string := "https://www.facebook.com/sharer/sharer.php?u="
  const TweetIntent: string := "https://twitter.com/intent/tweet?text="

  /** The share links. The Facebook link is the sharer address followed by the canonical
      URL, so its last two path segments name the author and the story; the Twitter link is
      the tweet address followed by the encoded share text, which ends with that URL. */
  function SocialBlock(appUrl: string, s: Story, encode: string -> string): (x: Section)
    ensures x.Social?
    ensures |FacebookSharer| < |x.facebookHref| && x.facebookHref[..|FacebookSharer|] == FacebookSharer
    ensures |FacebookSharer| + |appUrl| < |x.facebookHref|
    ensures x.facebookHref[|FacebookSharer|..|FacebookSharer| + |appUrl|] == appUrl
    ensures '/' !in s.user.username && '/' !in s.id ==>
              Split(x.facebookHref[|FacebookSharer|..], '/') == Split(appUrl, '/') + [s.user.username, s.id]
    ensures x.twitterHref == TweetIntent + encode(TwitterShareText(appUrl, s))
  {
    var url := SeoUrl(appUrl, s);
    var facebook := FacebookSharer + url;
    assert facebook[..|FacebookSharer|] == FacebookSharer && facebook[|FacebookSharer|..] == url;
    Social(facebook, TweetIntent + encode(TwitterShareText(appUrl, s)))
  }

  /** The page's blocks for a story, in order. The date line carries the raw `createdAt`
      (its formatting is done by `date-fns`); `render` stands for the parse, render
      (`SlateRules.RenderAll`), print and sanitize pipeline and `encode` for `encodeURI`. */
  function Layout(appUrl: string, s: Story, render: string -> string, encode: string -> string): (r: seq<Section>)
    ensures Title(s.title) in r
    ensures SocialBlock(appUrl, s, encode) in r
    ensures r[|r| - 1] == Footer(s.user.username, s.user.name, s.user.imageUrl)
  {
    var top := DateBlock(s) + [Title(s.title), Profile(s.user.username, s.user.name, s.user.imageUrl)];
    var bottom := [SocialBlock(appUrl, s, encode), Divider, About, Footer(s.user.username, s.user.name, s.user.imageUrl)];
    top + (CoverBlock(s) + ContentBlock(s, render)) + bottom
  }

  /** The optional blocks of a page assembled from the top, middle and bottom sections,
      where the bottom holds none of them. */
  lemma OptionalBlocksIn(s: Story, render: string -> string, top: seq<Section>, middle: seq<Section>, bottom: seq<Section>)
    requires top == DateBlock(s) + [Title(s.title), Profile(s.user.username, s.user.name, s.user.imageUrl)]
    requires middle == CoverBlock(s) + ContentBlock(s, render)
    requires forall x | x in bottom :: x.Social? || x.Divider? || x.About? || x.Footer?
    ensures forall d :: DateLine(d) in top + middle + bottom
                        <==> Truthy(s.createdAt) && d == s.createdAt.value
    ensures forall c :: Cover(c) in top + middle + bottom
                        <==> Truthy(s.coverImageUrl) && c == s.coverImageUrl.value
    ensures forall h :: Content(h) in top + middle + bottom
                        <==> Truthy(s.content) && h == render(s.content.value) && h != ""
  {
    assert forall x :: x in top + middle + bottom <==> x in top || x in middle || x in bottom;
    assert forall x | x in top :: x.DateLine? || x.Title? || x.Profile?;
  }

  /** The optional blocks: the date line appears exactly when the story has a creation
      date, the cover exactly when it has a cover image, and the body exactly when the
      content is present and renders to a non-empty string. */
  lemma LayoutOptionalBlocks(appUrl: string, s: Story, render: string -> string, encode: string -> string)
    ensures forall d :: DateLine(d) in Layout(appUrl, s, render, encode)
                        <==> Truthy(s.createdAt) && d == s.createdAt.value
    ensures forall c :: Cover(c) in Layout(appUrl, s, render, encode)
                        <==> Truthy(s.coverImageUrl) && c == s.coverImageUrl.value
    ensures forall h :: Content(h) in Layout(appUrl, s, render, encode)
                        <==> Truthy(s.content) && h == render(s.content.value) && h != ""
  {
    var top := DateBlock(s) + [Title(s.title), Profile(s.user.username, s.user.name, s.user.imageUrl)];
    var middle := CoverBlock(s) + ContentBlock(s, render);
    var social := SocialBlock(appUrl, s, encode);
    var bottom := [social, Divider, About, Footer(s.user.username, s.user.name, s.user.imageUrl)];
    assert Layout(appUrl, s, render, encode) == top + middle + bottom;
    OptionalBlocksIn(s, render, top, middle, bottom);
  }

  /** Without a cover image the page shows two dividers (above the body and above the
      author footer), with one it shows only the footer's. */
  lemma LayoutDividers(appUrl: string, s: Story, render: string -> string, encode: string -> string)
    ensures multiset(Layout(appUrl, s, render, encode))[Divider] == if Truthy(s.coverImageUrl) then 1 else 2
  {
  }

  /** The cover choices are complementary: the large card, the cover image as `og:image`
      and the cover block go together, and the top divider appears exactly without them. */
  lemma CoverChoicesComplementary(appUrl: string, s: Story, render: string -> string, encode: string -> string)
    ensures (TwitterCard(s) == "summary_large_image")
              <==> (exists c :: Cover(c) in Layout(appUrl, s, render, encode))
    ensures (exists c :: Cover(c) in Layout(appUrl, s, render, encode))
              <==> multiset(Layout(appUrl, s, render, encode))[Divider] == 1
    ensures TwitterCard(s) == "summary_large_image" ==> OgImage(appUrl, s) == s.coverImageUrl.value
    ensures TwitterCard(s) == "summary" ==> OgImage(appUrl, s) == appUrl + FallbackIconPath
  {
    var r := Layout(appUrl, s, render, encode);
    LayoutDividers(appUrl, s, render, encode);
    LayoutOptionalBlocks(appUrl, s, render, encode);
    if Truthy(s.coverImageUrl) {
      assert Cover(s.coverImageUrl.value) in r;
    }
  }

  /** Splits a string at every occurrence of `sep`, as JavaScript's `split` does. */
  function Split(s: string, sep: char): (parts: seq<string>)
    ensures |parts| >= 1
  {
    if s == [] then [""]
    else if s[0] == sep then [""] + Split(s[1..], sep)
    else
      var rest := Split(s[1..], sep);
      [[s[0]] + rest[0]] + rest[1..]
  }

  /** A string without the separator splits into itself. */
  lemma {:induction false} SplitWithoutSeparator(s: string, sep: char)
    requires sep !in s
    ensures Split(s, sep) == [s]
  {
    if s != [] {
      SplitWithoutSeparator(s[1..], sep);
      assert [s[0]] + s[1..] == s;
    }
  }

  /** One step of `Split` when the first character is the separator: it ends an empty part. */
  lemma SplitConsSeparator(t: string, sep: char)
    ensures Split([sep] + t, sep) == [""] + Split(t, sep)
  {
    assert ([sep] + t)[0] == sep && ([sep] + t)[1..] == t;
  }

  /** One step of `Split` on any other first character: it joins the first part. */
  lemma SplitConsOther(c: char, t: string, sep: char)
    requires c != sep
    ensures Split([c] + t, sep) == [[c] + Split(t, sep)[0]] + Split(t, sep)[1..]
  {
    assert ([c] + t)[0] == c && ([c] + t)[1..] == t;
  }

  /** Taking the first character off a string joined with the separator. */
  lemma JoinTail(a: string, b: string, sep: char)
    requires a != []
    ensures a + [sep] + b == [a[0]] + (a[1..] + [sep] + b)
    ensures a == [a[0]] + a[1..]
  {
  }

  /** Joining two strings with the separator joins their parts. */
  lemma {:induction false} SplitJoin(a: string, b: string, sep: char)
    ensures Split(a + [sep] + b, sep) == Split(a, sep) + Split(b, sep)
  {
    if a == [] {
      assert a + [sep] + b == [sep] + b;
      SplitConsSeparator(b, sep);
    } else {
      var c, t := a[0], a[1..];
      var tail := t + [sep] + b;
      JoinTail(a, b, sep);
      var front, back := Split(t, sep), Split(b, sep);
      if c == sep {
        calc {
          Split([c] + tail, sep);
          { SplitConsSeparator(tail, sep); }
          [""] + Split(tail, sep);
          { SplitJoin(t, b, sep); }
          [""] + (front + back);
          ([""] + front) + back;
          { SplitConsSeparator(t, sep); }
          Split([c] + t, sep) + back;
        }
      } else {
        calc {
          Split([c] + tail, sep);
          { SplitConsOther(c, tail, sep); }
          [[c] + Split(tail, sep)[0]] + Split(tail, sep)[1..];
          { SplitJoin(t, b, sep); }
          [[c] + (front + back)[0]] + (front + back)[1..];
          { assert (front + back)[0] == front[0] && (front + back)[1..] == front[1..] + back; }
          ([[c] + front[0]] + front[1..]) + back;
          { SplitConsOther(c, t, sep); }
          Split([c] + t, sep) + back;
        }
      }
    }
  }

  /** The SEO title can be read back: when neither the headline nor the byline holds a
      `|`, splitting the title at `|` gives exactly the headline, the byline and the site name. */
  lemma SeoTitleParts(s: Story)
    requires '|' !in Headline(s) && '|' !in Byline(s)
    ensures Split(SeoTitle(s), '|') == [Headline(s) + " ", " " + Byline(s) + " ", " Sigle"]
  {
    var h, b := Headline(s) + " ", " " + Byline(s) + " ";
    assert SeoTitle(s) == h + ['|'] + (b + ['|'] + " Sigle");
    SplitJoin(h, b + ['|'] + " Sigle", '|');
    SplitJoin(b, " Sigle", '|');
    SplitWithoutSeparator(h, '|');
    SplitWithoutSeparator(b, '|');
    SplitWithoutSeparator(" Sigle", '|');
  }
}
