/** The content records of utilities/models.py: images, SEO metadata,
    sections and whole posts, their Markdown and HTML renderings, the word
    count and reading time kept on a post, and the field validators of the
    validated variants. Dates are passed in already formatted. */
module Models {
  import opened Values
  import opened Text
  import opened Sequences

  datatype ContentStatus = Draft | InProgress | Review | Published | Archived

  /** `status.value` */
  function StatusValue(s: ContentStatus): string {
    match s
    case Draft => "draft"
    case InProgress => "in_progress"
    case Review => "review"
    case Published => "published"
    case Archived => "archived"
  }

  /** An optional string or integer field is truthy when present and not
      empty (not zero). */
  predicate Present(o: Option<string>) {
    o.Some? && o.value != []
  }

  predicate PresentInt(o: Option<int>) {
    o.Some? && o.value != 0
  }

  /** `{x}` of an optional integer field. */
  function OptIntText(o: Option<int>): string {
    if o.Some? then IntToString(o.value) else "None"
  }

  // ---------------------------------------------------------------------------
  // ImageMeta

  /** The fields of `ImageMeta` that its renderings read. */
  datatype ImageMeta = ImageMeta(url: string, altText: string, title: Option<string>,
                                 width: Option<int>, height: Option<int>, mimeType: string)

  /** `self.title or self.alt_text` */
  function Caption(img: ImageMeta): string {
    if Present(img.title) then img.title.value else img.altText
  }

  /** `ImageMeta.to_markdown` */
  function ImageMarkdown(img: ImageMeta): string {
    "![" + img.altText + "](" + img.url + " \"" + Caption(img) + "\")"
  }

  // ---------------------------------------------------------------------------
  // Fixed layouts with optional entries

  /** The entries of a fixed layout whose slots may be empty, in slot order:
      how the renderers below build their lists by conditional appends. */
  function Filled<T>(slots: seq<Option<T>>): seq<T> {
    if slots == [] then [] else (if slots[0].Some? then [slots[0].value] else []) + Filled(slots[1..])
  }

  /** Slot `k` can only hold an entry of rank `base + k`. */
  ghost predicate RankedFrom<T>(slots: seq<Option<T>>, rank: T -> nat, base: nat) {
    forall k :: 0 <= k < |slots| && slots[k].Some? ==> rank(slots[k].value) == base + k
  }

  /** The filled entries come in strictly increasing rank. */
  lemma {:induction false} FilledOrdered<T>(slots: seq<Option<T>>, rank: T -> nat, base: nat)
    requires RankedFrom(slots, rank, base)
    ensures forall i :: 0 <= i < |Filled(slots)| ==> rank(Filled(slots)[i]) >= base
    ensures forall i, j :: 0 <= i < j < |Filled(slots)| ==> rank(Filled(slots)[i]) < rank(Filled(slots)[j])
    decreases |slots|
  {
    if slots != [] {
      var rest := Filled(slots[1..]);
      assert RankedFrom(slots[1..], rank, base + 1) by {
        forall k | 0 <= k < |slots[1..]| && slots[1..][k].Some? ensures rank(slots[1..][k].value) == base + 1 + k {
          assert slots[1..][k] == slots[k + 1];
        }
      }
      FilledOrdered(slots[1..], rank, base + 1);
      var r := Filled(slots);
      if slots[0].Some? {
        assert r == [slots[0].value] + rest;
        forall i, j | 0 <= i < j < |r| ensures rank(r[i]) < rank(r[j]) {
          if i > 0 {
            assert r[i] == rest[i - 1];
          }
          assert r[j] == rest[j - 1];
        }
      } else {
        assert r == rest;
      }
    }
  }

  /** An entry is filled in exactly when the slot for its rank holds it. */
  lemma {:induction false} FilledMembers<T>(slots: seq<Option<T>>, rank: T -> nat, base: nat, x: T)
    requires RankedFrom(slots, rank, base)
    ensures x in Filled(slots) <==> base <= rank(x) < base + |slots| && slots[rank(x) - base] == Some(x)
    decreases |slots|
  {
    if slots != [] {
      assert RankedFrom(slots[1..], rank, base + 1) by {
        forall k | 0 <= k < |slots[1..]| && slots[1..][k].Some? ensures rank(slots[1..][k].value) == base + 1 + k {
          assert slots[1..][k] == slots[k + 1];
        }
      }
      FilledMembers(slots[1..], rank, base + 1, x);
      if rank(x) > base && rank(x) < base + |slots| {
        assert slots[1..][rank(x) - (base + 1)] == slots[rank(x) - base];
      }
    }
  }

  /** An entry is filled in exactly when its own slot holds it. */
  lemma SlotMember<T>(slots: seq<Option<T>>, rank: T -> nat, x: T)
    requires RankedFrom(slots, rank, 0) && rank(x) < |slots|
    ensures x in Filled(slots) <==> slots[rank(x)] == Some(x)
  {
    FilledMembers(slots, rank, 0, x);
  }

  /** The first entries of a layout whose first slots are all filled. */
  lemma FilledPrefix<T>(slots: seq<Option<T>>, a: T, b: T)
    requires |slots| >= 2 && slots[0] == Some(a) && slots[1] == Some(b)
    ensures |Filled(slots)| >= 2 && Filled(slots)[0] == a && Filled(slots)[1] == b
  {
    assert Filled(slots) == [a] + Filled(slots[1..]);
    assert slots[1..][0] == Some(b);
    assert Filled(slots[1..]) == [b] + Filled(slots[1..][1..]);
  }

  // ---------------------------------------------------------------------------
  // The image tag

  /** The attributes `to_html` can emit, ranked in the order it emits them. */
  datatype ImgAttr = Src(url: string) | Alt(text: string) | TitleAttr(title: string)
                   | WidthAttr(width: int) | HeightAttr(height: int)

  function AttrRank(a: ImgAttr): nat {
    match a
    case Src(_) => 0
    case Alt(_) => 1
    case TitleAttr(_) => 2
    case WidthAttr(_) => 3
    case HeightAttr(_) => 4
  }

  function RenderAttr(a: ImgAttr): string {
    match a
    case Src(u) => "src=\"" + u + "\""
    case Alt(t) => "alt=\"" + t + "\""
    case TitleAttr(t) => "title=\"" + t + "\""
    case WidthAttr(w) => "width=\"" + IntToString(w) + "\""
    case HeightAttr(h) => "height=\"" + IntToString(h) + "\""
  }

  function ImageSlots(img: ImageMeta): seq<Option<ImgAttr>> {
    [Some(Src(img.url)), Some(Alt(img.altText)),
     if Present(img.title) then Some(TitleAttr(img.title.value)) else None,
     if PresentInt(img.width) then Some(WidthAttr(img.width.value)) else None,
     if PresentInt(img.height) then Some(HeightAttr(img.height.value)) else None]
  }

  function ImageAttrs(img: ImageMeta): seq<ImgAttr> {
    Filled(ImageSlots(img))
  }

  /** `ImageMeta.to_html` */
  function ImageHtml(img: ImageMeta): string {
    var attrs := ImageAttrs(img);
    "<img " + Join(seq(|attrs|, i requires 0 <= i < |attrs| => RenderAttr(attrs[i])), " ") + " />"
  }

  /** The image tag starts with `src`, then `alt`; each of title, width and
      height is there exactly when its field is truthy, carrying that field,
      and the attributes keep that fixed order. */
  lemma ImageAttrsSpec(img: ImageMeta)
    ensures var a := ImageAttrs(img);
      && |a| >= 2 && a[0] == Src(img.url) && a[1] == Alt(img.altText)
      && (forall i, j :: 0 <= i < j < |a| ==> AttrRank(a[i]) < AttrRank(a[j]))
      && (forall t :: TitleAttr(t) in a <==> Present(img.title) && t == img.title.value)
      && (forall w :: WidthAttr(w) in a <==> PresentInt(img.width) && w == img.width.value)
      && (forall h :: HeightAttr(h) in a <==> PresentInt(img.height) && h == img.height.value)
  {
    var slots := ImageSlots(img);
    assert RankedFrom(slots, AttrRank, 0);
    FilledOrdered(slots, AttrRank, 0);
    FilledPrefix(slots, Src(img.url), Alt(img.altText));
    forall t ensures TitleAttr(t) in ImageAttrs(img) <==> Present(img.title) && t == img.title.value {
      FilledMembers(slots, AttrRank, 0, TitleAttr(t));
    }
    forall w ensures WidthAttr(w) in ImageAttrs(img) <==> PresentInt(img.width) && w == img.width.value {
      FilledMembers(slots, AttrRank, 0, WidthAttr(w));
    }
    forall h ensures HeightAttr(h) in ImageAttrs(img) <==> PresentInt(img.height) && h == img.height.value {
      FilledMembers(slots, AttrRank, 0, HeightAttr(h));
    }
  }

  /** The rendered tag opens with the `src` and `alt` attributes; the
      Markdown caption is the title when set, else the alt text. */
  lemma ImageRenderingSpec(img: ImageMeta)
    ensures StartsWith(ImageHtml(img), "<img src=\"" + img.url + "\" alt=\"" + img.altText + "\"")
    ensures Present(img.title) ==> ImageMarkdown(img) == "![" + img.altText + "](" + img.url + " \"" + img.title.value + "\")"
    ensures !Present(img.title) ==> ImageMarkdown(img) == "![" + img.altText + "](" + img.url + " \"" + img.altText + "\")"
  {
    var a := ImageAttrs(img);
    FilledPrefix(ImageSlots(img), Src(img.url), Alt(img.altText));
    var strs := seq(|a|, i requires 0 <= i < |a| => RenderAttr(a[i]));
    var tail := Join(strs[1..], " ");
    assert Join(strs, " ") == strs[0] + " " + tail;
    assert strs[1..][0] == RenderAttr(Alt(img.altText));
    JoinStartsWithFirst(strs[1..], " ");
    var head := "<img " + strs[0] + " " + strs[1];
    assert ImageHtml(img) == "<img " + strs[0] + " " + tail + " />";
    assert head == "<img src=\"" + img.url + "\" alt=\"" + img.altText + "\"";
  }

  /** A joined list starts with its first element. */
  lemma JoinStartsWithFirst(parts: seq<string>, sep: string)
    requires parts != []
    ensures StartsWith(Join(parts, sep), parts[0])
  {
    if |parts| > 1 {
      assert Join(parts, sep) == parts[0] + (sep + Join(parts[1..], sep));
    }
  }

  // ---------------------------------------------------------------------------
  // SEOMetadata

  datatype SEOMetadata = SEOMetadata(
    title: string, metaDescription: string, keywords: seq<string>, canonicalUrl: Option<string>,
    ogTitle: Option<string>, ogDescription: Option<string>, ogImage: Option<string>,
    twitterCard: string, twitterTitle: Option<string>, twitterDescription: Option<string>,
    twitterImage: Option<string>)

  /** The tags `to_meta_tags` can emit, ranked in the order it emits them. */
  datatype MetaTag =
    | TitleTag(title: string) | DescriptionTag(description: string) | KeywordsTag(keywords: string)
    | CanonicalTag(url: string) | OgTitleTag(ogTitle: string) | OgDescriptionTag(ogDescription: string)
    | OgImageTag(ogImage: string) | TwitterCardTag(card: string) | TwitterTitleTag(twitterTitle: string)
    | TwitterDescriptionTag(twitterDescription: string) | TwitterImageTag(twitterImage: string)

  function TagRank(t: MetaTag): nat {
    match t
    case TitleTag(_) => 0
    case DescriptionTag(_) => 1
    case KeywordsTag(_) => 2
    case CanonicalTag(_) => 3
    case OgTitleTag(_) => 4
    case OgDescriptionTag(_) => 5
    case OgImageTag(_) => 6
    case TwitterCardTag(_) => 7
    case TwitterTitleTag(_) => 8
    case TwitterDescriptionTag(_) => 9
    case TwitterImageTag(_) => 10
  }

  function MetaProperty(property: string, content: string): string {
    "<meta property=\"" + property + "\" content=\"" + content + "\">"
  }

  function MetaName(name: string, content: string): string {
    "<meta name=\"" + name + "\" content=\"" + content + "\">"
  }

  function RenderTag(t: MetaTag): string {
    match t
    case TitleTag(x) => "<title>" + x + "</title>"
    case DescriptionTag(x) => MetaName("description", x)
    case KeywordsTag(x) => MetaName("keywords", x)
    case CanonicalTag(x) => "<link rel=\"canonical\" href=\"" + x + "\">"
    case OgTitleTag(x) => MetaProperty("og:title", x)
    case OgDescriptionTag(x) => MetaProperty("og:description", x)
    case OgImageTag(x) => MetaProperty("og:image", x)
    case TwitterCardTag(x) => MetaName("twitter:card", x)
    case TwitterTitleTag(x) => MetaName("twitter:title", x)
    case TwitterDescriptionTag(x) => MetaName("twitter:description", x)
    case TwitterImageTag(x) => MetaName("twitter:image", x)
  }

  function MetaSlots(m: SEOMetadata): seq<Option<MetaTag>> {
    [Some(TitleTag(m.title)), Some(DescriptionTag(m.metaDescription)),
     if m.keywords != [] then Some(KeywordsTag(Join(m.keywords, ", "))) else None,
     if Present(m.canonicalUrl) then Some(CanonicalTag(m.canonicalUrl.value)) else None,
     if Present(m.ogTitle) then Some(OgTitleTag(m.ogTitle.value)) else None,
     if Present(m.ogDescription) then Some(OgDescriptionTag(m.ogDescription.value)) else None,
     if Present(m.ogImage) then Some(OgImageTag(m.ogImage.value)) else None,
     Some(TwitterCardTag(m.twitterCard)),
     if Present(m.twitterTitle) then Some(TwitterTitleTag(m.twitterTitle.value)) else None,
     if Present(m.twitterDescription) then Some(TwitterDescriptionTag(m.twitterDescription.value)) else None,
     if Present(m.twitterImage) then Some(TwitterImageTag(m.twitterImage.value)) else None]
  }

  function MetaTagList(m: SEOMetadata): seq<MetaTag> {
    Filled(MetaSlots(m))
  }

  lemma MetaSlotsRanked(m: SEOMetadata)
    ensures RankedFrom(MetaSlots(m), TagRank, 0)
  {
    var slots := MetaSlots(m);
    forall k | 0 <= k < |slots| && slots[k].Some? ensures TagRank(slots[k].value) == k {
      if k < 3 {
      } else if k < 6 {
      } else if k < 9 {
      } else {
      }
    }
  }

  /** `SEOMetadata.to_meta_tags` */
  function ToMetaTags(m: SEOMetadata): (r: seq<string>)
    ensures |r| == |MetaTagList(m)|
    ensures forall i :: 0 <= i < |r| ==> r[i] == RenderTag(MetaTagList(m)[i])
  {
    var tags := MetaTagList(m);
    seq(|tags|, i requires 0 <= i < |tags| => RenderTag(tags[i]))
  }

  /** The title and description tags come first, the Twitter card tag is
      always there, and no kind of tag repeats: the kinds keep their fixed
      order. */
  lemma MetaTagsSpec(m: SEOMetadata)
    ensures var t := MetaTagList(m);
      && |t| >= 2 && t[0] == TitleTag(m.title) && t[1] == DescriptionTag(m.metaDescription)
      && TwitterCardTag(m.twitterCard) in t
      && (forall i, j :: 0 <= i < j < |t| ==> TagRank(t[i]) < TagRank(t[j]))
  {
    var slots := MetaSlots(m);
    assert RankedFrom(slots, TagRank, 0);
    FilledOrdered(slots, TagRank, 0);
    FilledPrefix(slots, TitleTag(m.title), DescriptionTag(m.metaDescription));
    FilledMembers(slots, TagRank, 0, TwitterCardTag(m.twitterCard));
  }

  /** The keywords tag is there exactly when there are keywords, joining
      them with ", "; the canonical link exactly when the URL is truthy. */
  lemma MetaTagsOptional(m: SEOMetadata)
    ensures forall x :: KeywordsTag(x) in MetaTagList(m) <==> m.keywords != [] && x == Join(m.keywords, ", ")
    ensures forall x :: CanonicalTag(x) in MetaTagList(m) <==> Present(m.canonicalUrl) && x == m.canonicalUrl.value
  {
    var slots := MetaSlots(m);
    MetaSlotsRanked(m);
    forall x ensures KeywordsTag(x) in MetaTagList(m) <==> m.keywords != [] && x == Join(m.keywords, ", ") {
      SlotMember(slots, TagRank, KeywordsTag(x));
    }
    forall x ensures CanonicalTag(x) in MetaTagList(m) <==> Present(m.canonicalUrl) && x == m.canonicalUrl.value {
      SlotMember(slots, TagRank, CanonicalTag(x));
    }
  }

  /** Each Open Graph tag is there exactly when its field is truthy and
      carries that field. */
  lemma MetaTagsOpenGraph(m: SEOMetadata)
    ensures forall x :: OgTitleTag(x) in MetaTagList(m) <==> Present(m.ogTitle) && x == m.ogTitle.value
    ensures forall x :: OgDescriptionTag(x) in MetaTagList(m) <==> Present(m.ogDescription) && x == m.ogDescription.value
    ensures forall x :: OgImageTag(x) in MetaTagList(m) <==> Present(m.ogImage) && x == m.ogImage.value
  {
    var slots := MetaSlots(m);
    MetaSlotsRanked(m);
    forall x ensures OgTitleTag(x) in MetaTagList(m) <==> Present(m.ogTitle) && x == m.ogTitle.value {
      SlotMember(slots, TagRank, OgTitleTag(x));
    }
    forall x ensures OgDescriptionTag(x) in MetaTagList(m) <==> Present(m.ogDescription) && x == m.ogDescription.value {
      SlotMember(slots, TagRank, OgDescriptionTag(x));
    }
    forall x ensures OgImageTag(x) in MetaTagList(m) <==> Present(m.ogImage) && x == m.ogImage.value {
      SlotMember(slots, TagRank, OgImageTag(x));
    }
  }

  /** Each optional Twitter tag is there exactly when its field is truthy
      and carries that field. */
  lemma MetaTagsTwitter(m: SEOMetadata)
    ensures forall x :: TwitterTitleTag(x) in MetaTagList(m) <==> Present(m.twitterTitle) && x == m.twitterTitle.value
    ensures forall x :: TwitterDescriptionTag(x) in MetaTagList(m) <==> Present(m.twitterDescription) && x == m.twitterDescription.value
    ensures forall x :: TwitterImageTag(x) in MetaTagList(m) <==> Present(m.twitterImage) && x == m.twitterImage.value
  {
    var slots := MetaSlots(m);
    MetaSlotsRanked(m);
    forall x ensures TwitterTitleTag(x) in MetaTagList(m) <==> Present(m.twitterTitle) && x == m.twitterTitle.value {
      SlotMember(slots, TagRank, TwitterTitleTag(x));
    }
    forall x ensures TwitterDescriptionTag(x) in MetaTagList(m) <==> Present(m.twitterDescription) && x == m.twitterDescription.value {
      SlotMember(slots, TagRank, TwitterDescriptionTag(x));
    }
    forall x ensures TwitterImageTag(x) in MetaTagList(m) <==> Present(m.twitterImage) && x == m.twitterImage.value {
      SlotMember(slots, TagRank, TwitterImageTag(x));
    }
  }

  // ---------------------------------------------------------------------------
  // Section

  datatype Section = Section(heading: string, content: string, level: int, subsections: seq<Section>,
                             images: seq<ImageMeta>, keywords: seq<string>, wordCount: Option<int>)

  /** `Section(...)` followed by `__post_init__`: a word count left unset
      becomes the number of whitespace-separated words of the content. */
  function NewSection(heading: string, content: string, level: int, subsections: seq<Section>,
                      images: seq<ImageMeta>, keywords: seq<string>, wordCount: Option<int>): (s: Section)
    ensures s.heading == heading && s.content == content && s.level == level
    ensures s.subsections == subsections && s.images == images && s.keywords == keywords
    ensures wordCount.Some? ==> s.wordCount == wordCount
    ensures wordCount.None? ==> s.wordCount == Some(|Words(content)|)
  {
    Section(heading, content, level, subsections, images, keywords,
            if wordCount.None? then Some(WordCount(content)) else wordCount)
  }

  /** A defaulted word count is zero exactly for blank content. */
  lemma NewSectionBlank(heading: string, content: string, level: int)
    ensures NewSection(heading, content, level, [], [], [], None).wordCount == Some(0) <==> AllSpace(content)
  {
    WordsEmpty(content);
  }

  /** `'#' * level + ' ' + heading` */
  function HeadingLine(s: Section): string {
    Repeat('#', s.level) + " " + s.heading
  }

  /** Each image's Markdown followed by a blank line. */
  function ImageLines(images: seq<ImageMeta>): (r: seq<string>)
    ensures |r| == 2 * |images|
  {
    if images == [] then [] else [ImageMarkdown(images[0]), ""] + ImageLines(images[1..])
  }

  /** The lines `Section.to_markdown` joins. */
  function SectionMarkdownLines(s: Section): seq<string>
    decreases s, 0
  {
    [HeadingLine(s), ""] + ImageLines(s.images) + [s.content, ""]
    + seq(|s.subsections|, i requires 0 <= i < |s.subsections| => SectionMarkdown(s.subsections[i]))
  }

  /** `Section.to_markdown` */
  function SectionMarkdown(s: Section): string
    decreases s, 1
  {
    Join(SectionMarkdownLines(s), "\n")
  }

  /** Image `k` is on line `2k`, a blank line after it. */
  lemma {:induction false} ImageLinesAt(images: seq<ImageMeta>, k: nat)
    requires k < |images|
    ensures ImageLines(images)[2 * k] == ImageMarkdown(images[k]) && ImageLines(images)[2 * k + 1] == ""
    decreases k
  {
    var rest := ImageLines(images[1..]);
    assert ImageLines(images) == [ImageMarkdown(images[0]), ""] + rest;
    if k > 0 {
      ImageLinesAt(images[1..], k - 1);
    }
  }

  /** The heading line is `level` '#' characters (none for a level below
      one), a space and the heading. */
  lemma HeadingLineSpec(s: Section)
    ensures var h := HeadingLine(s); var n := if s.level > 0 then s.level else 0;
      && |h| == n + 1 + |s.heading|
      && (forall i :: 0 <= i < n ==> h[i] == '#')
      && h[n] == ' ' && h[n + 1..] == s.heading
  {
  }

  /** The heading line opens the rendering, followed by a line break. */
  lemma SectionMarkdownStart(s: Section)
    ensures StartsWith(SectionMarkdown(s), HeadingLine(s) + "\n")
  {
    var l := SectionMarkdownLines(s);
    assert l[0] == HeadingLine(s);
    assert Join(l, "\n") == l[0] + "\n" + Join(l[1..], "\n");
  }

  /** After the heading and a blank line come the images, each followed by
      a blank line, then the content, a blank line, and every subsection
      rendered the same way, in order. */
  lemma SectionMarkdownLayout(s: Section)
    ensures var l := SectionMarkdownLines(s); var m := 2 * |s.images|;
      && |l| == 4 + m + |s.subsections|
      && l[1] == ""
      && (forall k :: 0 <= k < |s.images| ==> l[2 + 2 * k] == ImageMarkdown(s.images[k]) && l[3 + 2 * k] == "")
      && l[2 + m] == s.content && l[3 + m] == ""
      && (forall i :: 0 <= i < |s.subsections| ==> l[4 + m + i] == SectionMarkdown(s.subsections[i]))
  {
    var l := SectionMarkdownLines(s);
    var il := ImageLines(s.images);
    forall k | 0 <= k < |s.images| ensures l[2 + 2 * k] == ImageMarkdown(s.images[k]) && l[3 + 2 * k] == "" {
      ImageLinesAt(s.images, k);
      assert l[2 + 2 * k] == il[2 * k];
      assert l[3 + 2 * k] == il[2 * k + 1];
    }
  }

  /** Non-empty, with no whitespace at either end. */
  predicate Trimmed(x: string) {
    x != [] && !IsSpace(x[0]) && !IsSpace(x[|x| - 1])
  }

  /** The non-blank chunks of the content, stripped, in order. */
  function Paragraphs(chunks: seq<string>): (r: seq<string>)
    ensures |r| <= |chunks|
    ensures forall i :: 0 <= i < |r| ==> Trimmed(r[i])
  {
    if chunks == [] then []
    else
      var head := if Strip(chunks[0]) != [] then [Strip(chunks[0])] else [];
      var rest := Paragraphs(chunks[1..]);
      AllTrimmedConcat(head, rest);
      head + rest
  }

  /** Joining two lists of stripped paragraphs keeps every entry stripped. */
  lemma AllTrimmedConcat(xs: seq<string>, ys: seq<string>)
    requires forall i :: 0 <= i < |xs| ==> Trimmed(xs[i])
    requires forall i :: 0 <= i < |ys| ==> Trimmed(ys[i])
    ensures forall i :: 0 <= i < |xs + ys| ==> Trimmed((xs + ys)[i])
  {
    forall i | 0 <= i < |xs + ys| ensures Trimmed((xs + ys)[i]) {
      if i >= |xs| {
        assert (xs + ys)[i] == ys[i - |xs|];
      }
    }
  }

  function ContentParagraphs(content: string): seq<string> {
    Paragraphs(SplitOn(content, "\n\n"))
  }

  function LevelText(level: int): string {
    IntToString(level)
  }

  /** `<h{level}>{heading}</h{level}>` */
  function HtmlHeadingLine(s: Section): string {
    "<h" + LevelText(s.level) + ">" + s.heading + "</h" + LevelText(s.level) + ">"
  }

  function FigureLine(img: ImageMeta): string {
    "<figure>" + ImageHtml(img) + "</figure>"
  }

  function ParagraphLine(p: string): string {
    "<p>" + p + "</p>"
  }

  function FigureLines(images: seq<ImageMeta>): (r: seq<string>)
    ensures |r| == |images|
    ensures forall i {:trigger r[i]} :: 0 <= i < |r| ==> r[i] == FigureLine(images[i])
  {
    seq(|images|, i requires 0 <= i < |images| => FigureLine(images[i]))
  }

  function ParagraphLines(ps: seq<string>): (r: seq<string>)
    ensures |r| == |ps|
    ensures forall i {:trigger r[i]} :: 0 <= i < |r| ==> r[i] == ParagraphLine(ps[i])
  {
    seq(|ps|, i requires 0 <= i < |ps| => ParagraphLine(ps[i]))
  }

  function SubsectionHtmls(s: Section): (r: seq<string>)
    ensures |r| == |s.subsections|
    ensures forall i {:trigger r[i]} :: 0 <= i < |r| ==> r[i] == SectionHtml(s.subsections[i])
    decreases s, 0
  {
    seq(|s.subsections|, i requires 0 <= i < |s.subsections| => SectionHtml(s.subsections[i]))
  }

  /** The lines `Section.to_html` writes before its subsections: the
      heading line, a `<figure>` per image and a `<p>` per paragraph. */
  function HeadLines(heading: string, images: seq<ImageMeta>, ps: seq<string>): seq<string> {
    [heading] + FigureLines(images) + ParagraphLines(ps)
  }

  function HtmlHeadLines(s: Section): seq<string> {
    HeadLines(HtmlHeadingLine(s), s.images, ContentParagraphs(s.content))
  }

  /** The lines `Section.to_html` joins. */
  function SectionHtmlLines(s: Section): seq<string>
    decreases s, 1
  {
    HtmlHeadLines(s) + SubsectionHtmls(s)
  }

  /** `Section.to_html` */
  function SectionHtml(s: Section): string
    decreases s, 2
  {
    Join(SectionHtmlLines(s), "\n")
  }

  /** The heading line opens the rendering. */
  lemma SectionHtmlStart(s: Section)
    ensures StartsWith(SectionHtml(s), HtmlHeadingLine(s))
  {
    var l := SectionHtmlLines(s);
    assert l[0] == HtmlHeadingLine(s);
    if |l| > 1 {
      assert Join(l, "\n") == l[0] + "\n" + Join(l[1..], "\n");
    }
  }

  /** The lines are the heading line, one `<figure>` per image, one `<p>`
      per non-blank paragraph of the content (stripped, with no blank line
      inside), then every subsection rendered the same way, in order. */
  lemma SectionHtmlLayout(s: Section)
    ensures var h := HtmlHeadLines(s); var m := |s.images|; var ps := ContentParagraphs(s.content);
      && SectionHtmlLines(s) == h + SubsectionHtmls(s)
      && |h| == 1 + m + |ps|
      && h[0] == HtmlHeadingLine(s)
      && (forall k :: 0 <= k < m ==> h[1 + k] == FigureLine(s.images[k]))
      && (forall k :: 0 <= k < |ps| ==> h[1 + m + k] == ParagraphLine(ps[k]) && Trimmed(ps[k]) && !Contains(ps[k], "\n\n"))
      && (forall i :: 0 <= i < |s.subsections| ==> SubsectionHtmls(s)[i] == SectionHtml(s.subsections[i]))
  {
    HeadLinesLayout(HtmlHeadingLine(s), s.images, ContentParagraphs(s.content));
    ContentParagraphsSpec(s.content);
  }

  /** Where the heading, figure and paragraph lines sit. */
  lemma HeadLinesLayout(heading: string, images: seq<ImageMeta>, ps: seq<string>)
    ensures var h := HeadLines(heading, images, ps); var m := |images|;
      && |h| == 1 + m + |ps|
      && h[0] == heading
      && (forall k :: 0 <= k < m ==> h[1 + k] == FigureLine(images[k]))
      && (forall k :: 0 <= k < |ps| ==> h[1 + m + k] == ParagraphLine(ps[k]))
  {
    var figures, paras := FigureLines(images), ParagraphLines(ps);
    var top := [heading] + figures;
    var h := top + paras;
    forall k | 0 <= k < |images| ensures h[1 + k] == FigureLine(images[k]) {
      assert h[1 + k] == top[1 + k] == figures[k];
    }
    forall k | 0 <= k < |ps| ensures h[1 + |images| + k] == ParagraphLine(ps[k]) {
      assert h[1 + |images| + k] == paras[k];
    }
  }

  /** Every piece of a blank text is blank. */
  lemma {:induction false} SplitBlank(s: string, sep: string)
    requires sep != [] && AllSpace(s)
    ensures forall i :: 0 <= i < |SplitOn(s, sep)| ==> AllSpace(SplitOn(s, sep)[i])
    decreases |s|
  {
    match IndexOf(s, sep)
    case None =>
    case Some(i) =>
      SplitBlank(s[i + |sep|..], sep);
      var rest := SplitOn(s[i + |sep|..], sep);
      assert SplitOn(s, sep) == [s[..i]] + rest;
  }

  lemma {:induction false} ParagraphsOfBlank(chunks: seq<string>)
    requires forall i :: 0 <= i < |chunks| ==> AllSpace(chunks[i])
    ensures Paragraphs(chunks) == []
    decreases |chunks|
  {
    if chunks != [] {
      ParagraphsOfBlank(chunks[1..]);
    }
  }

  /** A slice of a text without `t` has no `t` either. */
  lemma SliceLacks(s: string, t: string, i: nat, j: nat)
    requires i <= j <= |s| && !Contains(s, t)
    ensures !Contains(s[i..j], t)
  {
    forall k | 0 <= k && k + |t| <= j - i
      ensures OccursAt(s[i..j], t, k) ==> OccursAt(s, t, i + k)
    {
      var x := s[i..j][k..k + |t|];
      var y := s[i + k..i + k + |t|];
      forall m | 0 <= m < |t| ensures x[m] == y[m] {
      }
      assert x == y;
    }
  }

  lemma {:induction false} ParagraphsLackBreaks(chunks: seq<string>)
    requires forall i :: 0 <= i < |chunks| ==> !Contains(chunks[i], "\n\n")
    ensures forall i :: 0 <= i < |Paragraphs(chunks)| ==> !Contains(Paragraphs(chunks)[i], "\n\n")
    decreases |chunks|
  {
    if chunks != [] {
      ParagraphsLackBreaks(chunks[1..]);
      StripLacks(chunks[0], "\n\n");
      var head := if Strip(chunks[0]) != [] then [Strip(chunks[0])] else [];
      assert Paragraphs(chunks) == head + Paragraphs(chunks[1..]);
    }
  }

  /** Stripping a text without `t` leaves a text without `t`. */
  lemma StripLacks(c: string, t: string)
    requires !Contains(c, t)
    ensures !Contains(Strip(c), t)
  {
    var i, j :| 0 <= i <= j <= |c| && Strip(c) == c[i..j] && AllSpace(c[..i]) && AllSpace(c[j..]);
    SliceLacks(c, t, i, j);
  }

  /** The paragraphs of `to_html`: a blank content gives none; a content
      without a blank-line break gives its stripped self when not blank;
      every paragraph is non-empty, has no surrounding whitespace and no
      blank-line break inside. */
  lemma ContentParagraphsSpec(content: string)
    ensures AllSpace(content) ==> ContentParagraphs(content) == []
    ensures !Contains(content, "\n\n") && !AllSpace(content) ==> ContentParagraphs(content) == [Strip(content)]
    ensures var ps := ContentParagraphs(content);
      forall i :: 0 <= i < |ps| ==> Trimmed(ps[i]) && !Contains(ps[i], "\n\n")
  {
    var chunks := SplitOn(content, "\n\n");
    if AllSpace(content) {
      SplitBlank(content, "\n\n");
      ParagraphsOfBlank(chunks);
    }
    if !Contains(content, "\n\n") {
      SplitOnNone(content, "\n\n");
      assert chunks == [content];
      assert chunks[1..] == [];
    }
    ParagraphsLackBreaks(chunks);
  }

  // ---------------------------------------------------------------------------
  // BlogPost

  /** `section.word_count or 0` */
  function SectionWords(s: Section): int {
    if s.wordCount.Some? then s.wordCount.value else 0
  }

  function SectionsWords(sections: seq<Section>): int {
    if sections == [] then 0 else SectionsWords(sections[..|sections| - 1]) + SectionWords(sections[|sections| - 1])
  }

  /** Words of an optional text, counted only when it is truthy. */
  function TextWords(t: Option<string>): nat {
    if Present(t) then WordCount(t.value) else 0
  }

  /** The total `update_metrics` computes. */
  function TotalWords(introduction: Option<string>, sections: seq<Section>, conclusion: Option<string>): int {
    TextWords(introduction) + SectionsWords(sections) + TextWords(conclusion)
  }

  /** Python's `round(n / d)` for d > 0: the nearest integer, halves to the
      even neighbour. */
  function RoundHalfEven(n: int, d: int): int
    requires d > 0
  {
    var q := n / d;
    var r := n % d;
    if 2 * r < d then q else if 2 * r > d then q + 1 else if q % 2 == 0 then q else q + 1
  }

  /** `q` is a nearest integer to `n / d`, and an even one on an exact tie. */
  predicate RoundsTo(n: int, d: int, q: int)
    requires d > 0
  {
    var e := 2 * (n - q * d);
    -d <= e <= d && (e == d || e == -d ==> q % 2 == 0)
  }

  /** The distance from `n` to a multiple `q * d`, in terms of the remainder. */
  lemma Offset(n: int, d: int, q: int)
    requires d > 0
    ensures n - q * d == n % d - (q - n / d) * d
  {
    assert n == (n / d) * d + n % d;
    assert q * d == (n / d) * d + (q - n / d) * d;
  }

  /** Only the floor of `n / d` and the next integer can round it. */
  lemma RoundsToClose(n: int, d: int, x: int)
    requires d > 0 && RoundsTo(n, d, x)
    ensures x == n / d || x == n / d + 1
  {
    var t := x - n / d;
    Offset(n, d, x);
    MulSteps(t, d);
  }

  lemma MulSteps(t: int, d: int)
    requires d > 0
    ensures t >= 2 ==> t * d >= 2 * d
    ensures t <= -1 ==> t * d <= -d
  {
    if t >= 2 {
      assert t * d == 2 * d + (t - 2) * d;
    } else if t <= -1 {
      assert t * d == -d + (t + 1) * d;
    }
  }

  /** The result rounds `n / d` correctly. */
  lemma RoundHalfEvenRounds(n: int, d: int)
    requires d > 0
    ensures RoundsTo(n, d, RoundHalfEven(n, d))
  {
    var q, r := n / d, n % d;
    assert n - q * d == r;
    assert n - (q + 1) * d == r - d by { assert (q + 1) * d == q * d + d; }
  }

  /** The result rounds `n / d` correctly, and it is the only integer that
      does. */
  lemma RoundHalfEvenSpec(n: int, d: int, other: int)
    requires d > 0
    ensures RoundsTo(n, d, RoundHalfEven(n, d))
    ensures RoundsTo(n, d, other) ==> other == RoundHalfEven(n, d)
  {
    RoundHalfEvenRounds(n, d);
    if RoundsTo(n, d, other) {
      RoundsToClose(n, d, other);
      Offset(n, d, n / d);
      Offset(n, d, n / d + 1);
    }
  }

  /** `max(1, round(total / 200))` */
  function ReadingTime(total: int): (r: int)
    ensures r >= 1
  {
    var q := RoundHalfEven(total, 200);
    if q > 1 then q else 1
  }

  /** Reading time is one minute up to 299 words and grows with the words. */
  lemma ReadingTimeFacts(a: int, b: int)
    ensures a <= 299 ==> ReadingTime(a) == 1
    ensures a <= b ==> ReadingTime(a) <= ReadingTime(b)
  {
    var qa := RoundHalfEven(a, 200);
    var qb := RoundHalfEven(b, 200);
    RoundHalfEvenSpec(a, 200, qa);
    RoundHalfEvenSpec(b, 200, qb);
  }

  class BlogPost {
    var title: string
    var slug: string
    var author: string
    var category: Option<string>
    var tags: seq<string>
    var summary: Option<string>
    var introduction: Option<string>
    var sections: seq<Section>
    var conclusion: Option<string>
    var seoMetadata: Option<SEOMetadata>
    var featuredImage: Option<ImageMeta>
    var status: ContentStatus
    var wordCount: Option<int>
    var readingTime: Option<int>
    var internalLinks: seq<string>
    var externalLinks: seq<string>

    /** `BlogPost(...)`; `__post_init__` computes the metrics. */
    constructor(title: string, slug: string, author: string, category: Option<string>, tags: seq<string>,
                summary: Option<string>, introduction: Option<string>, sections: seq<Section>,
                conclusion: Option<string>, seoMetadata: Option<SEOMetadata>,
                featuredImage: Option<ImageMeta>, status: ContentStatus,
                internalLinks: seq<string>, externalLinks: seq<string>)
      ensures this.title == title && this.slug == slug && this.author == author
      ensures this.category == category && this.tags == tags && this.summary == summary
      ensures this.introduction == introduction && this.sections == sections && this.conclusion == conclusion
      ensures this.seoMetadata == seoMetadata && this.featuredImage == featuredImage && this.status == status
      ensures this.internalLinks == internalLinks && this.externalLinks == externalLinks
      ensures wordCount == Some(TotalWords(introduction, sections, conclusion))
      ensures readingTime == Some(ReadingTime(TotalWords(introduction, sections, conclusion)))
    {
      this.title := title;
      this.slug := slug;
      this.author := author;
      this.category := category;
      this.tags := tags;
      this.summary := summary;
      this.introduction := introduction;
      this.sections := sections;
      this.conclusion := conclusion;
      this.seoMetadata := seoMetadata;
      this.featuredImage := featuredImage;
      this.status := status;
      this.internalLinks := internalLinks;
      this.externalLinks := externalLinks;
      wordCount := None;
      readingTime := None;
      new;
      UpdateMetrics();
    }

    /** `update_metrics`: the word total over the introduction, the section
        counts and the conclusion, and the reading time from it. */
    method UpdateMetrics()
      modifies this
      ensures wordCount == Some(TotalWords(introduction, sections, conclusion))
      ensures readingTime == Some(ReadingTime(TotalWords(introduction, sections, conclusion)))
      ensures title == old(title) && slug == old(slug) && author == old(author)
      ensures category == old(category) && tags == old(tags) && summary == old(summary)
      ensures introduction == old(introduction) && sections == old(sections) && conclusion == old(conclusion)
      ensures seoMetadata == old(seoMetadata) && featuredImage == old(featuredImage) && status == old(status)
      ensures internalLinks == old(internalLinks) && externalLinks == old(externalLinks)
    {
      var total := 0;
      if introduction.Some? && introduction.value != [] {
        total := total + WordCount(introduction.value);
      }
      for k := 0 to |sections|
        invariant total == TextWords(introduction) + SectionsWords(sections[..k])
      {
        assert sections[..k + 1][..k] == sections[..k];
        total := total + SectionWords(sections[k]);
      }
      assert sections[..|sections|] == sections;
      if conclusion.Some? && conclusion.value != [] {
        total := total + WordCount(conclusion.value);
      }
      wordCount := Some(total);
      var rounded := RoundHalfEven(total, 200);
      readingTime := Some(if rounded > 1 then rounded else 1);
    }

    /** The front matter of `to_markdown`; `date` is `created_at` formatted. */
    function FrontMatter(date: string): seq<string>
      reads this
    {
      ["---", "title: " + title, "author: " + author, "date: " + date]
      + (if Present(category) then ["category: " + category.value] else [])
      + (if tags != [] then ["tags: [" + Join(tags, ", ") + "]"] else [])
      + ["status: " + StatusValue(status), "reading_time: " + OptIntText(readingTime) + " min", "---"]
    }

    /** The title, featured image and introduction lines of `to_markdown`. */
    function MarkdownLead(): seq<string>
      reads this
    {
      ["", "# " + title, ""]
      + (if featuredImage.Some? then [ImageMarkdown(featuredImage.value), ""] else [])
      + (if Present(introduction) then [introduction.value, ""] else [])
    }

    /** The conclusion lines of `to_markdown`. */
    function MarkdownClose(): seq<string>
      reads this
    {
      if Present(conclusion) then ["## Conclusion", "", conclusion.value, ""] else []
    }

    /** The lines `to_markdown` joins. */
    function MarkdownLines(date: string): seq<string>
      reads this
    {
      FrontMatter(date) + MarkdownLead() + SectionsMarkdown(sections) + MarkdownClose()
    }

    /** `BlogPost.to_markdown` */
    function ToMarkdown(date: string): string
      reads this
    {
      Join(MarkdownLines(date), "\n")
    }

    function TagLines(): seq<string>
      reads this
    {
      if tags == [] then [] else ["<div class=\"tags\">"] + TagSpans(tags) + ["</div>"]
    }

    /** The article opening and the header of `to_html`; `isoDate` and
        `longDate` are `created_at` formatted. */
    function HtmlHeader(isoDate: string, longDate: string): seq<string>
      reads this
    {
      ["<article class=\"blog-post\">", "<header>", "<h1>" + title + "</h1>", "<div class=\"meta\">",
       "<span class=\"author\">By " + author + "</span>",
       "<time datetime=\"" + isoDate + "\">" + longDate + "</time>",
       "<span class=\"reading-time\">" + OptIntText(readingTime) + " min read</span>", "</div>"]
      + TagLines() + ["</header>"]
    }

    /** The featured image, the content opening and the introduction. */
    function HtmlLead(): seq<string>
      reads this
    {
      (if featuredImage.Some? then ["<div class=\"featured-image\">" + ImageHtml(featuredImage.value) + "</div>"] else [])
      + ["<div class=\"content\">"]
      + (if Present(introduction) then ["<div class=\"introduction\"><p>" + introduction.value + "</p></div>"] else [])
    }

    /** The conclusion and the closing of the content and the article. */
    function HtmlClose(): seq<string>
      reads this
    {
      (if Present(conclusion) then ["<section class=\"conclusion\">", "<h2>Conclusion</h2>", "<p>" + conclusion.value + "</p>", "</section>"] else [])
      + ["</div>", "</article>"]
    }

    /** The lines `to_html` joins. */
    function HtmlLines(isoDate: string, longDate: string): seq<string>
      reads this
    {
      HtmlHeader(isoDate, longDate) + HtmlLead() + SectionBlocks(SectionsHtml(sections)) + HtmlClose()
    }

    /** `BlogPost.to_html` */
    function ToHtml(isoDate: string, longDate: string): string
      reads this
    {
      Join(HtmlLines(isoDate, longDate), "\n")
    }
  }

  /** One Markdown rendering per section, in order. */
  function SectionsMarkdown(sections: seq<Section>): (r: seq<string>)
    ensures |r| == |sections| && forall i {:trigger r[i]} :: 0 <= i < |r| ==> r[i] == SectionMarkdown(sections[i])
  {
    seq(|sections|, i requires 0 <= i < |sections| => SectionMarkdown(sections[i]))
  }

  /** One tag span per tag, in order. */
  function TagSpans(tags: seq<string>): (r: seq<string>)
    ensures |r| == |tags| && forall i {:trigger r[i]} :: 0 <= i < |r| ==> r[i] == "<span class=\"tag\">" + tags[i] + "</span>"
  {
    seq(|tags|, i requires 0 <= i < |tags| => "<span class=\"tag\">" + tags[i] + "</span>")
  }

  /** One HTML rendering per section, in order. */
  function SectionsHtml(sections: seq<Section>): (r: seq<string>)
    ensures |r| == |sections| && forall i {:trigger r[i]} :: 0 <= i < |r| ==> r[i] == SectionHtml(sections[i])
  {
    seq(|sections|, i requires 0 <= i < |sections| => SectionHtml(sections[i]))
  }

  /** Each rendered section between its `<section>` and `</section>` lines. */
  function Wrapped(rendered: seq<string>): (r: seq<seq<string>>)
    ensures |r| == |rendered|
    ensures forall k {:trigger r[k]} :: 0 <= k < |rendered| ==> r[k] == ["<section>", rendered[k], "</section>"]
  {
    seq(|rendered|, k requires 0 <= k < |rendered| => ["<section>", rendered[k], "</section>"])
  }

  /** The `<section>` elements of `to_html`, one after the other: three
      lines per section. */
  function SectionBlocks(rendered: seq<string>): (r: seq<string>)
    ensures |r| == 3 * |rendered|
  {
    FlattenLength(Wrapped(rendered), 3);
    Flatten(Wrapped(rendered))
  }

  /** A slice of the middle part of a concatenation. */
  lemma SliceBetween<T>(pre: seq<T>, mid: seq<T>, post: seq<T>, i: nat, n: nat)
    requires i + n <= |mid|
    ensures (pre + mid + post)[|pre| + i..|pre| + i + n] == mid[i..i + n]
  {
  }

  /** The blocks keep their layout between any lines before and after:
      section `k` fills the three lines from offset `3 * k`. */
  lemma BlocksBetween(pre: seq<string>, rendered: seq<string>, post: seq<string>, k: nat)
    requires k < |rendered|
    ensures var o := |pre| + 3 * k;
      (pre + SectionBlocks(rendered) + post)[o..o + 3] == ["<section>", rendered[k], "</section>"]
  {
    var parts := Wrapped(rendered);
    var before := Flatten(parts[..k]);
    var after := Flatten(parts[k + 1..]);
    FlattenAt(parts, k);
    FlattenLength(parts[..k], 3);
    assert pre + SectionBlocks(rendered) + post == (pre + before) + parts[k] + (after + post);
    SliceBetween(pre + before, parts[k], after + post, 0, 3);
    assert parts[k][0..3] == parts[k];
  }

  /** The front matter opens and closes with `---`; the title, author and
      date lines follow the opening; the category line comes next exactly
      when a category is set, then the tags line exactly when there are
      tags; status and reading time close it. */
  lemma FrontMatterSpec(p: BlogPost, date: string)
    ensures var f := p.FrontMatter(date); var c := if Present(p.category) then 1 else 0;
      var t := if p.tags != [] then 1 else 0;
      && |f| == 7 + c + t
      && f[0] == "---" && f[|f| - 1] == "---"
      && f[1] == "title: " + p.title && f[2] == "author: " + p.author && f[3] == "date: " + date
      && (Present(p.category) ==> f[4] == "category: " + p.category.value)
      && (p.tags != [] ==> f[4 + c] == "tags: [" + Join(p.tags, ", ") + "]")
      && f[4 + c + t] == "status: " + StatusValue(p.status)
      && f[5 + c + t] == "reading_time: " + OptIntText(p.readingTime) + " min"
  {
  }

  /** After the front matter come a blank line and the title heading; the
      featured image and the introduction, each followed by a blank line,
      appear exactly when set; every section follows rendered on its own, in
      order; the conclusion block closes the text exactly when set. */
  lemma MarkdownSpec(p: BlogPost, date: string)
    ensures var l := p.MarkdownLines(date); var f := |p.FrontMatter(date)|; var lead := p.MarkdownLead();
      var o := f + |lead|;
      && |lead| == 3 + (if p.featuredImage.Some? then 2 else 0) + (if Present(p.introduction) then 2 else 0)
      && l[f] == "" && l[f + 1] == "# " + p.title
      && (p.featuredImage.Some? ==> l[f + 3] == ImageMarkdown(p.featuredImage.value))
      && (Present(p.introduction) ==> l[o - 2] == p.introduction.value)
      && (forall i :: 0 <= i < |p.sections| ==> l[o + i] == SectionMarkdown(p.sections[i]))
      && (Present(p.conclusion) ==> |l| == o + |p.sections| + 4 && l[|l| - 4] == "## Conclusion"
                                    && l[|l| - 2] == p.conclusion.value)
      && (!Present(p.conclusion) ==> |l| == o + |p.sections|)
  {
    var fm := p.FrontMatter(date);
    var lead := p.MarkdownLead();
    var secs := SectionsMarkdown(p.sections);
    var close := p.MarkdownClose();
    assert p.MarkdownLines(date) == fm + lead + secs + close;
  }

  /** The tag block is there exactly when there are tags: one span per
      tag, in order, between its opening and closing lines. */
  lemma TagLinesSpec(p: BlogPost)
    ensures var g := p.TagLines();
      && (p.tags == [] <==> g == [])
      && (p.tags != [] ==> && |g| == |p.tags| + 2 && g[0] == "<div class=\"tags\">" && g[|g| - 1] == "</div>"
                           && forall i :: 0 <= i < |p.tags| ==> g[i + 1] == "<span class=\"tag\">" + p.tags[i] + "</span>")
  {
  }

  /** The HTML opens the article, then the header with the title; the
      content and the article close last. */
  lemma HtmlFrame(p: BlogPost, isoDate: string, longDate: string)
    ensures var h := p.HtmlLines(isoDate, longDate);
      && h[0] == "<article class=\"blog-post\">" && h[2] == "<h1>" + p.title + "</h1>"
      && h[|h| - 1] == "</article>" && h[|h| - 2] == "</div>"
  {
    var head := p.HtmlHeader(isoDate, longDate);
    var body := p.HtmlLead() + SectionBlocks(SectionsHtml(p.sections));
    var close := p.HtmlClose();
    assert p.HtmlLines(isoDate, longDate) == head + body + close;
    assert head[0] == "<article class=\"blog-post\">" && head[2] == "<h1>" + p.title + "</h1>";
    assert close[|close| - 2..] == ["</div>", "</article>"];
  }

  /** Every section is wrapped in its own `<section>` element, in order,
      after the header and the lead (`SectionsHtml(p.sections)[k]` is the
      rendering of section `k`, by the contract of `SectionsHtml`). */
  lemma HtmlSectionAt(p: BlogPost, isoDate: string, longDate: string, k: nat)
    requires k < |p.sections|
    ensures var o := |p.HtmlHeader(isoDate, longDate)| + |p.HtmlLead()| + 3 * k;
      var h := p.HtmlLines(isoDate, longDate);
      o + 3 <= |h| && h[o] == "<section>" && h[o + 1] == SectionsHtml(p.sections)[k] && h[o + 2] == "</section>"
  {
    LinesAt(p.HtmlHeader(isoDate, longDate), p.HtmlLead(), SectionsHtml(p.sections), p.HtmlClose(), k);
  }

  /** `BlocksBetween` for the four parts of the HTML lines. */
  lemma LinesAt(head: seq<string>, lead: seq<string>, rendered: seq<string>, close: seq<string>, k: nat)
    requires k < |rendered|
    ensures var o := |head| + |lead| + 3 * k;
      var h := head + lead + SectionBlocks(rendered) + close;
      o + 3 <= |h| && h[o] == "<section>" && h[o + 1] == rendered[k] && h[o + 2] == "</section>"
  {
    BlocksBetween(head + lead, rendered, close, k);
    var o := |head| + |lead| + 3 * k;
    var h := head + lead + SectionBlocks(rendered) + close;
    assert h[o..o + 3] == ["<section>", rendered[k], "</section>"];
    assert h[o] == h[o..o + 3][0] && h[o + 1] == h[o..o + 3][1] && h[o + 2] == h[o..o + 3][2];
  }

  // ---------------------------------------------------------------------------
  // Validators of the validated variants

  const ALLOWED_MIME_TYPES: seq<string> := ["image/jpeg", "image/png", "image/gif", "image/webp", "image/svg+xml"]
  const ALLOWED_STATUSES: seq<string> := ["draft", "in_progress", "review", "published", "archived"]

  /** `repr` of a list of plain strings. */
  function ListRepr(xs: seq<string>): string {
    "[" + Join(seq(|xs|, i requires 0 <= i < |xs| => "'" + xs[i] + "'"), ", ") + "]"
  }

  /** `validate_mime_type` */
  function ValidateMimeType(v: string): (r: Result<string, string>)
    ensures r.Ok? <==> v in ALLOWED_MIME_TYPES
    ensures r.Ok? ==> r.value == v
    ensures r.Err? ==> r.error == "mime_type must be one of " + ListRepr(ALLOWED_MIME_TYPES)
  {
    if v in ALLOWED_MIME_TYPES then Ok(v) else Err("mime_type must be one of " + ListRepr(ALLOWED_MIME_TYPES))
  }

  /** `validate_status` */
  function ValidateStatus(v: string): (r: Result<string, string>)
    ensures r.Ok? <==> v in ALLOWED_STATUSES
    ensures r.Ok? ==> r.value == v
    ensures r.Err? ==> r.error == "status must be one of " + ListRepr(ALLOWED_STATUSES)
  {
    if v in ALLOWED_STATUSES then Ok(v) else Err("status must be one of " + ListRepr(ALLOWED_STATUSES))
  }

  /** The status strings accepted are exactly the `ContentStatus` values. */
  lemma StatusesMatchEnum(v: string)
    ensures ValidateStatus(v).Ok? <==> exists s: ContentStatus :: StatusValue(s) == v
  {
    if v in ALLOWED_STATUSES {
      var s := if v == "draft" then Draft else if v == "in_progress" then InProgress
               else if v == "review" then Review else if v == "published" then Published else Archived;
      assert StatusValue(s) == v;
    }
  }

  predicate SlugChar(c: char) {
    ('a' <= c <= 'z') || ('0' <= c <= '9') || c == '-'
  }

  /** The slug pattern `^[a-z0-9-]+$`. */
  predicate SlugMatches(s: string) {
    s != [] && forall i :: 0 <= i < |s| ==> SlugChar(s[i])
  }

  /** The constrained fields of the validated post. */
  datatype PostFields = PostFields(title: string, slug: string, author: string, tags: seq<string>,
                                   summary: Option<string>, introduction: Option<string>,
                                   conclusion: Option<string>, status: string,
                                   wordCount: Option<int>, readingTime: Option<int>)

  function AtMost(o: Option<string>, n: nat): bool {
    o.None? || |o.value| <= n
  }

  /** The names of the fields that fail their constraint, in field order;
      the post validates when there are none. */
  function PostErrors(f: PostFields): (r: seq<string>)
    ensures r == [] <==> && 1 <= |f.title| <= 200 && SlugMatches(f.slug) && |f.author| >= 1
                         && |f.tags| <= 10 && AtMost(f.summary, 500) && AtMost(f.introduction, 1000)
                         && AtMost(f.conclusion, 1000) && f.status in ALLOWED_STATUSES
                         && (f.wordCount.None? || f.wordCount.value >= 0)
                         && (f.readingTime.None? || f.readingTime.value >= 1)
  {
    (if 1 <= |f.title| <= 200 then [] else ["title"])
    + (if SlugMatches(f.slug) then [] else ["slug"])
    + (if |f.author| >= 1 then [] else ["author"])
    + (if |f.tags| <= 10 then [] else ["tags"])
    + (if AtMost(f.summary, 500) then [] else ["summary"])
    + (if AtMost(f.introduction, 1000) then [] else ["introduction"])
    + (if AtMost(f.conclusion, 1000) then [] else ["conclusion"])
    + (if ValidateStatus(f.status).Ok? then [] else ["status"])
    + (if f.wordCount.None? || f.wordCount.value >= 0 then [] else ["word_count"])
    + (if f.readingTime.None? || f.readingTime.value >= 1 then [] else ["reading_time"])
  }

  /** The constrained fields of the validated image record. */
  function ImageErrors(width: Option<int>, height: Option<int>, fileSize: Option<int>, mimeType: string): (r: seq<string>)
    ensures r == [] <==> && (width.None? || width.value > 0) && (height.None? || height.value > 0)
                         && (fileSize.None? || fileSize.value > 0) && mimeType in ALLOWED_MIME_TYPES
  {
    (if width.None? || width.value > 0 then [] else ["width"])
    + (if height.None? || height.value > 0 then [] else ["height"])
    + (if fileSize.None? || fileSize.value > 0 then [] else ["file_size"])
    + (if ValidateMimeType(mimeType).Ok? then [] else ["mime_type"])
  }

  /** A post built by BlogPost always carries a reading time the validated
      variant accepts, and a non-negative word count when no section carries
      a negative one. */
  lemma MetricsValidate(p: BlogPost)
    requires p.readingTime == Some(ReadingTime(TotalWords(p.introduction, p.sections, p.conclusion)))
    requires p.wordCount == Some(TotalWords(p.introduction, p.sections, p.conclusion))
    requires forall i :: 0 <= i < |p.sections| ==> SectionWords(p.sections[i]) >= 0
    ensures p.readingTime.value >= 1 && p.wordCount.value >= 0
  {
    SectionsWordsNonNegative(p.sections);
  }

  lemma {:induction false} SectionsWordsNonNegative(sections: seq<Section>)
    requires forall i :: 0 <= i < |sections| ==> SectionWords(sections[i]) >= 0
    ensures SectionsWords(sections) >= 0
    decreases |sections|
  {
    if sections != [] {
      SectionsWordsNonNegative(sections[..|sections| - 1]);
    }
  }
}
