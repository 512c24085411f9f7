/** The exporters of utilities/exporters.py: file names, the dictionary a
    post is saved as in JSON, the WordPress XML document, the choice of
    writer by format name, the export bundle and the batch export. Files,
    directories, the zip archive and the clock are not modelled: the
    timestamps are parameters and a failing write is a predicate. */
module Exporters {
  import opened Values
  import opened Text
  import opened Models
  import opened Sequences

  // ---------------------------------------------------------------------------
  // ExportFormat and file names

  const MARKDOWN := "markdown"
  const HTML := "html"
  const JSON := "json"
  const WORDPRESS := "wordpress"
  const MEDIUM := "medium"
  const PDF := "pdf"

  /** The four writers of `BlogExporter`. */
  datatype Writer = MarkdownWriter | HtmlWriter | JsonWriter | WordPressWriter

  /** The extension each writer gives a generated file name. */
  function Extension(w: Writer): string {
    match w
    case MarkdownWriter => "md"
    case HtmlWriter => "html"
    case JsonWriter => "json"
    case WordPressWriter => "xml"
  }

  /** The writer a format name selects; other names, "medium" and "pdf"
      among them, select none. */
  function WriterFor(format: string): Option<Writer> {
    if format == MARKDOWN then Some(MarkdownWriter)
    else if format == HTML then Some(HtmlWriter)
    else if format == JSON then Some(JsonWriter)
    else if format == WORDPRESS then Some(WordPressWriter)
    else None
  }

  /** `_generate_filename`: `timestamp` is the `%Y%m%d_%H%M%S` rendering of
      the clock. */
  function GenerateFilename(slug: string, timestamp: string, format: string): string {
    slug + "_" + timestamp + "." + format
  }

  /** A generated name starts with the slug and an underscore, and its
      suffix (after the last '.') is the format, whatever the slug and the
      timestamp contain. */
  lemma GenerateFilenameSpec(slug: string, timestamp: string, format: string)
    requires forall j :: 0 <= j < |format| ==> format[j] != '.'
    ensures var r := GenerateFilename(slug, timestamp, format);
      && StartsWith(r, slug + "_")
      && LastIndexOf(r, '.') == Some(|slug| + |timestamp| + 1)
      && r[|slug| + |timestamp| + 2..] == format
  {
    var r := GenerateFilename(slug, timestamp, format);
    var k := |slug| + |timestamp| + 1;
    assert r[k] == '.';
    assert forall j :: k < j < |r| ==> r[j] == format[j - k - 1];
    assert (slug + "_") <= r by { assert r[..|slug| + 1] == slug + "_"; }
    assert r[k + 1..] == format;
  }

  /** `Path(name).name`: the part after the last '/'. */
  function BaseName(path: string): (r: string)
    ensures (forall j :: 0 <= j < |path| ==> path[j] != '/') ==> r == path
  {
    match LastIndexOf(path, '/')
    case None => path
    case Some(i) => path[i + 1..]
  }

  // ---------------------------------------------------------------------------
  // _blog_post_to_dict

  function OptStr(o: Option<string>): (r: Value)
    ensures r.Null? <==> o.None?
  {
    if o.Some? then Str(o.value) else Null
  }

  function OptInt(o: Option<int>): (r: Value)
    ensures r.Null? <==> o.None?
  {
    if o.Some? then Int(o.value) else Null
  }

  function StrList(xs: seq<string>): (r: Value)
    ensures r.List? && |r.items| == |xs| && forall i :: 0 <= i < |xs| ==> r.items[i] == Str(xs[i])
  {
    List(seq(|xs|, i requires 0 <= i < |xs| => Str(xs[i])))
  }

  function ImageDict(img: ImageMeta): Value {
    Obj([("url", Str(img.url)), ("alt_text", Str(img.altText)), ("title", OptStr(img.title))])
  }

  /** One entry of "sections"; subsections are not exported. */
  function SectionDict(s: Section): Value {
    Obj([("heading", Str(s.heading)), ("content", Str(s.content)), ("level", Int(s.level)),
         ("keywords", StrList(s.keywords)), ("word_count", OptInt(s.wordCount)),
         ("images", List(seq(|s.images|, i requires 0 <= i < |s.images| => ImageDict(s.images[i]))))])
  }

  function SectionDicts(sections: seq<Section>): (r: seq<Value>)
    ensures |r| == |sections| && forall i :: 0 <= i < |r| ==> r[i] == SectionDict(sections[i])
  {
    seq(|sections|, i requires 0 <= i < |sections| => SectionDict(sections[i]))
  }

  /** A metadata or image object is always truthy, so only an absent one
      becomes None. */
  function SeoDict(m: Option<SEOMetadata>): Value {
    match m
    case None => Null
    case Some(s) => Obj([("title", Str(s.title)), ("meta_description", Str(s.metaDescription)),
                         ("keywords", StrList(s.keywords))])
  }

  function FeaturedDict(img: Option<ImageMeta>): Value {
    match img
    case None => Null
    case Some(i) => Obj([("url", Str(i.url)), ("alt_text", Str(i.altText))])
  }

  /** The fields of a post that its class here does not carry: the three
      timestamps in ISO form. */
  datatype PostExtras = PostExtras(createdAt: string, updatedAt: string, publishedAt: Option<string>)

  /** The entries before "sections". */
  function PostHeadEntries(p: BlogPost): seq<(string, Value)>
    reads p
  {
    [("title", Str(p.title)), ("slug", Str(p.slug)), ("author", Str(p.author)),
     ("category", OptStr(p.category)), ("tags", StrList(p.tags)), ("summary", OptStr(p.summary)),
     ("introduction", OptStr(p.introduction))]
  }

  /** The entries after "sections" up to "status". */
  function PostBodyEntries(p: BlogPost): seq<(string, Value)>
    reads p
  {
    [("conclusion", OptStr(p.conclusion)), ("seo_metadata", SeoDict(p.seoMetadata)),
     ("featured_image", FeaturedDict(p.featuredImage)), ("status", Str(StatusValue(p.status)))]
  }

  /** The entries after "status". */
  function PostTailEntries(p: BlogPost, x: PostExtras): seq<(string, Value)>
    reads p
  {
    [("created_at", Str(x.createdAt)), ("updated_at", Str(x.updatedAt)),
     ("published_at", OptStr(x.publishedAt)), ("word_count", OptInt(p.wordCount)),
     ("reading_time", OptInt(p.readingTime)), ("internal_links", StrList(p.internalLinks)),
     ("external_links", StrList(p.externalLinks))]
  }

  /** `_blog_post_to_dict`, its nineteen entries in the source's order. */
  function BlogPostToDict(p: BlogPost, x: PostExtras): Value
    reads p
  {
    Obj(PostHeadEntries(p) + [("sections", List(SectionDicts(p.sections)))] + PostBodyEntries(p)
        + PostTailEntries(p, x))
  }

  /** None of the keys before "status" is "sections", "seo_metadata",
      "featured_image" or "status". */
  lemma PostHeadKeys(p: BlogPost)
    ensures var h := PostHeadEntries(p);
      && Get(h, "sections").None? && Get(h, "seo_metadata").None?
      && Get(h, "featured_image").None? && Get(h, "status").None?
  {
    var h := PostHeadEntries(p);
    assert forall i :: 0 <= i < |h| ==> h[i].0[0] in "tsaci" && |h[i].0| != 14;
    assert forall i :: 0 <= i < |h| ==> h[i].0[0] != 's' || |h[i].0| == 4 || |h[i].0| == 7;
  }

  /** The exported sections are the post's, one dictionary each and in
      order. */
  lemma BlogPostToDictSections(p: BlogPost, x: PostExtras)
    ensures Get(BlogPostToDict(p, x).entries, "sections") == Some(List(SectionDicts(p.sections)))
  {
    var h := PostHeadEntries(p);
    var s := [("sections", List(SectionDicts(p.sections)))];
    var rest := PostBodyEntries(p) + PostTailEntries(p, x);
    assert BlogPostToDict(p, x).entries == h + (s + rest);
    PostHeadKeys(p);
    GetAppend(h, s + rest, "sections");
  }

  /** A key found neither before "sections" nor as "sections" is looked up
      in the entries after it. */
  lemma LookupAfterSections(p: BlogPost, x: PostExtras, k: string)
    requires Get(PostHeadEntries(p), k).None? && k != "sections"
    ensures Get(BlogPostToDict(p, x).entries, k) == Get(PostBodyEntries(p) + PostTailEntries(p, x), k)
  {
    var h := PostHeadEntries(p);
    var s := [("sections", List(SectionDicts(p.sections)))];
    var rest := PostBodyEntries(p) + PostTailEntries(p, x);
    assert BlogPostToDict(p, x).entries == h + (s + rest);
    GetAppend(h, s + rest, k);
    GetAppend(s, rest, k);
  }

  /** Where the keys after "sections" up to "status" sit. */
  lemma BodySeo(p: BlogPost)
    ensures Get(PostBodyEntries(p), "seo_metadata") == Some(SeoDict(p.seoMetadata))
  {
    var b := PostBodyEntries(p);
    assert |b[0].0| == 10;
    GetAt(b, "seo_metadata", 1);
  }

  lemma BodyFeatured(p: BlogPost)
    ensures Get(PostBodyEntries(p), "featured_image") == Some(FeaturedDict(p.featuredImage))
  {
    var b := PostBodyEntries(p);
    assert |b[0].0| == 10 && |b[1].0| == 12;
    GetAt(b, "featured_image", 2);
  }

  lemma BodyStatus(p: BlogPost)
    ensures Get(PostBodyEntries(p), "status") == Some(Str(StatusValue(p.status)))
  {
    var b := PostBodyEntries(p);
    assert |b[0].0| == 10 && |b[1].0| == 12 && |b[2].0| == 14;
    GetAt(b, "status", 3);
  }

  /** "seo_metadata" is None exactly when the post has no metadata. */
  lemma BlogPostToDictSeo(p: BlogPost, x: PostExtras)
    ensures Get(BlogPostToDict(p, x).entries, "seo_metadata") == Some(SeoDict(p.seoMetadata))
    ensures SeoDict(p.seoMetadata).Null? <==> p.seoMetadata.None?
  {
    assert Get(PostHeadEntries(p), "seo_metadata").None? by { PostHeadKeys(p); }
    LookupAfterSections(p, x, "seo_metadata");
    BodySeo(p);
    GetAppend(PostBodyEntries(p), PostTailEntries(p, x), "seo_metadata");
  }

  /** "featured_image" is None exactly when the post has no featured
      image. */
  lemma BlogPostToDictFeatured(p: BlogPost, x: PostExtras)
    ensures Get(BlogPostToDict(p, x).entries, "featured_image") == Some(FeaturedDict(p.featuredImage))
    ensures FeaturedDict(p.featuredImage).Null? <==> p.featuredImage.None?
  {
    assert Get(PostHeadEntries(p), "featured_image").None? by { PostHeadKeys(p); }
    LookupAfterSections(p, x, "featured_image");
    BodyFeatured(p);
    GetAppend(PostBodyEntries(p), PostTailEntries(p, x), "featured_image");
  }

  /** "status" is the status's value. */
  lemma BlogPostToDictStatus(p: BlogPost, x: PostExtras)
    ensures Get(BlogPostToDict(p, x).entries, "status") == Some(Str(StatusValue(p.status)))
  {
    assert Get(PostHeadEntries(p), "status").None? by { PostHeadKeys(p); }
    LookupAfterSections(p, x, "status");
    BodyStatus(p);
    GetAppend(PostBodyEntries(p), PostTailEntries(p, x), "status");
  }

  /** Where the two link lists sit among the entries after "status". */
  lemma TailLinks(p: BlogPost, x: PostExtras)
    ensures Get(PostTailEntries(p, x), "internal_links") == Some(StrList(p.internalLinks))
    ensures Get(PostTailEntries(p, x), "external_links") == Some(StrList(p.externalLinks))
  {
    var t := PostTailEntries(p, x);
    assert forall i :: 0 <= i < 5 ==> t[i].0[0] in "curwp";
    GetAt(t, "internal_links", 5);
    assert t[5].0[0] == 'i';
    GetAt(t, "external_links", 6);
  }

  /** The exported link lists are the post's own, in order. */
  lemma BlogPostToDictLinks(p: BlogPost, x: PostExtras)
    ensures Get(BlogPostToDict(p, x).entries, "internal_links") == Some(StrList(p.internalLinks))
    ensures Get(BlogPostToDict(p, x).entries, "external_links") == Some(StrList(p.externalLinks))
  {
    var h, b := PostHeadEntries(p), PostBodyEntries(p);
    assert forall i :: 0 <= i < |h| ==> h[i].0[0] in "tsaci" && |h[i].0| != 14;
    assert forall i :: 0 <= i < |b| ==> b[i].0[0] in "csfs";
    TailLinks(p, x);
    LookupAfterSections(p, x, "internal_links");
    GetAppend(b, PostTailEntries(p, x), "internal_links");
    LookupAfterSections(p, x, "external_links");
    GetAppend(b, PostTailEntries(p, x), "external_links");
  }

  // ---------------------------------------------------------------------------
  // save_wordpress_xml

  /** `tag.lower().replace(" ", "-")`, one character at a time. */
  function TagNicename(tag: string): string {
    if tag == [] then [] else [if tag[0] == ' ' then '-' else LowerChar(tag[0])] + TagNicename(tag[1..])
  }

  /** The nicename is the lower-cased tag with every space replaced by '-'. */
  lemma {:induction false} TagNicenameIsLowerReplace(tag: string)
    ensures TagNicename(tag) == ReplaceChar(Lower(tag), ' ', '-')
  {
    if tag != [] {
      TagNicenameIsLowerReplace(tag[1..]);
      var n := TagNicename(tag);
      var r := ReplaceChar(Lower(tag), ' ', '-');
      assert |n| == |r| by { NicenameLength(tag); }
      forall i | 0 <= i < |n| ensures n[i] == r[i] {
        if i > 0 {
          assert n[i] == TagNicename(tag[1..])[i - 1];
        }
      }
    }
  }

  lemma {:induction false} NicenameLength(tag: string)
    ensures |TagNicename(tag)| == |tag|
  {
    if tag != [] {
      NicenameLength(tag[1..]);
    }
  }

  /** A nicename is as long as the tag, has no space and no upper-case
      ASCII letter, keeps every other character, and is its own nicename. */
  lemma TagNicenameSpec(tag: string)
    ensures var n := TagNicename(tag);
      && |n| == |tag|
      && (forall i :: 0 <= i < |n| ==> n[i] != ' ' && !('A' <= n[i] <= 'Z'))
      && (forall i :: 0 <= i < |n| ==> tag[i] != ' ' && !('A' <= tag[i] <= 'Z') ==> n[i] == tag[i])
      && TagNicename(n) == n
  {
    var n := TagNicename(tag);
    TagNicenameIsLowerReplace(tag);
    TagNicenameIsLowerReplace(n);
  }

  /** One indented line of the item: an opening tag, a text, a closing tag. */
  function Line(open: string, text: string, close: string): string {
    "        " + open + text + close + "\n"
  }

  function Cdata(text: string): string {
    "<![CDATA[" + text + "]]>"
  }

  function CategoryOpen(domain: string, nicename: string): string {
    "<category domain=\"" + domain + "\" nicename=\"" + nicename + "\">"
  }

  /** The `post_tag` category line written for one tag. */
  function TagLine(tag: string): string {
    Line(CategoryOpen("post_tag", TagNicename(tag)), Cdata(tag), "</category>")
  }

  /** The tag lines, one per tag and in order. */
  function TagLines(tags: seq<string>): (r: seq<string>)
    ensures |r| == |tags| && forall i :: 0 <= i < |tags| ==> r[i] == TagLine(tags[i])
  {
    seq(|tags|, i requires 0 <= i < |tags| => TagLine(tags[i]))
  }

  /** Tag `k` has its line between the lines of the tags before it and the
      lines of the tags after it. */
  lemma TagLineAt(tags: seq<string>, k: nat)
    requires k < |tags|
    ensures Flatten(TagLines(tags)) == Flatten(TagLines(tags[..k])) + TagLine(tags[k]) + Flatten(TagLines(tags[k + 1..]))
  {
    var l := TagLines(tags);
    FlattenAt(l, k);
    assert l[..k] == TagLines(tags[..k]);
    assert l[k + 1..] == TagLines(tags[k + 1..]);
  }

  /** `{x or 'default'}` of an optional string. */
  function OrDefault(o: Option<string>, default: string): (r: string)
    ensures Present(o) ==> r == o.value
    ensures !Present(o) ==> r == default
  {
    if Present(o) then o.value else default
  }

  /** The post's category line: an absent or empty category is written as
      "uncategorized" / "Uncategorized". */
  function CategoryLine(category: Option<string>): string {
    Line(CategoryOpen("category", OrDefault(category, "uncategorized")),
         Cdata(OrDefault(category, "Uncategorized")), "</category>")
  }

  /** The document up to and including the category line. */
  function WordPressHead(p: BlogPost, pubDate: string, contentHtml: string): string
    reads p
  {
    WordPressItem(p, pubDate, contentHtml) + CategoryLine(p.category)
  }

  const XML_PROLOGUE :=
    "<?xml version=\"1.0\" encoding=\"UTF-8\"?>\n"
    + "<rss version=\"2.0\"\n"
    + "    xmlns:excerpt=\"http://wordpress.org/export/1.2/excerpt/\"\n"
    + "    xmlns:content=\"http://purl.org/rss/1.0/modules/content/\"\n"
    + "    xmlns:wfw=\"http://wellformedweb.org/CommentAPI/\"\n"
    + "    xmlns:dc=\"http://purl.org/dc/elements/1.1/\"\n"
    + "    xmlns:wp=\"http://wordpress.org/export/1.2/\">\n"
    + "<channel>\n"
    + "    <item>\n"

  /** The document up to the category line: the post's title, slug,
      date, author, summary (or ""), HTML body, status, and the fixed
      post type "post". */
  function WordPressItem(p: BlogPost, pubDate: string, contentHtml: string): string
    reads p
  {
    XML_PROLOGUE
    + Line("<title>", Cdata(p.title), "</title>")
    + Line("<link>", p.slug, "</link>")
    + Line("<pubDate>", pubDate, "</pubDate>")
    + Line("<dc:creator>", Cdata(p.author), "</dc:creator>")
    + Line("<guid isPermaLink=\"false\">", p.slug, "</guid>")
    + Line("<description>", Cdata(OrDefault(p.summary, "")), "</description>")
    + Line("<content:encoded>", Cdata(contentHtml), "</content:encoded>")
    + Line("<wp:post_name>", Cdata(p.slug), "</wp:post_name>")
    + Line("<wp:status>", Cdata(StatusValue(p.status)), "</wp:status>")
    + Line("<wp:post_type>", Cdata("post"), "</wp:post_type>")
  }

  const RSS_TAIL := "    </item>\n</channel>\n</rss>"

  /** The document `save_wordpress_xml` writes: `pubDate` is the creation
      time in RFC 822 form, and the body is the post's HTML rendering. */
  method WordPressXml(p: BlogPost, pubDate: string, isoDate: string, longDate: string) returns (xml: string)
    ensures xml == WordPressHead(p, pubDate, p.ToHtml(isoDate, longDate)) + Flatten(TagLines(p.tags)) + RSS_TAIL
  {
    xml := WordPressHead(p, pubDate, p.ToHtml(isoDate, longDate));
    xml := AppendTagLines(xml, p.tags);
    xml := xml + RSS_TAIL;
  }

  /** The tag loop of `save_wordpress_xml`: one line appended per tag. */
  method AppendTagLines(head: string, tags: seq<string>) returns (xml: string)
    ensures xml == head + Flatten(TagLines(tags))
  {
    var lines := TagLines(tags);
    xml := head;
    for i := 0 to |tags|
      invariant xml == head + Flatten(lines[..i])
    {
      FlattenStep(lines, i);
      AppendAssoc(head, Flatten(lines[..i]), lines[i]);
      xml := xml + lines[i];
    }
    assert lines[..|tags|] == lines;
  }

  /** An absent or empty category is written with the defaults; a present
      one is written as both its nicename and its label. */
  lemma CategoryLineSpec(category: Option<string>)
    ensures !Present(category) ==>
      CategoryLine(category) == Line(CategoryOpen("category", "uncategorized"), Cdata("Uncategorized"), "</category>")
    ensures Present(category) ==>
      CategoryLine(category) == Line(CategoryOpen("category", category.value), Cdata(category.value), "</category>")
  {
  }

  // ---------------------------------------------------------------------------
  // export_blog_post

  /** What `export_blog_post` does for a format: the writer it calls, the
      file name it writes (the given one, else a generated one) and the path
      it returns. */
  datatype Export = Export(writer: Writer, filename: string, path: string)

  /** `self.output_dir / filename` */
  function OutputPath(dir: string, name: string): string {
    dir + "/" + name
  }

  function SaveName(slug: string, w: Writer, filename: Option<string>, timestamp: string): string {
    if filename.Some? then filename.value else GenerateFilename(slug, timestamp, Extension(w))
  }

  /** `export_blog_post`, without the writing itself. */
  function ExportBlogPost(dir: string, slug: string, format: string, filename: Option<string>, timestamp: string)
    : Result<Export, string>
  {
    match WriterFor(format)
    case None => Err("Unsupported format: " + format)
    case Some(w) =>
      var name := SaveName(slug, w, filename, timestamp);
      Ok(Export(w, name, OutputPath(dir, name)))
  }

  /** Exactly the four formats are accepted; any other raises a ValueError
      naming it. A given file name is used as is, a generated one carries
      the writer's extension. The returned path is the name inside the
      output directory. */
  lemma ExportBlogPostSpec(dir: string, slug: string, format: string, filename: Option<string>, timestamp: string)
    ensures var r := ExportBlogPost(dir, slug, format, filename, timestamp);
      && (r.Ok? <==> format in [MARKDOWN, HTML, JSON, WORDPRESS])
      && (r.Err? ==> r.error == "Unsupported format: " + format)
      && (r.Ok? && filename.Some? ==> r.value.filename == filename.value)
      && (r.Ok? && filename.None? ==> r.value.filename == GenerateFilename(slug, timestamp, Extension(r.value.writer)))
      && (r.Ok? ==> r.value.path == dir + "/" + r.value.filename)
    ensures ExportBlogPost(dir, slug, MEDIUM, filename, timestamp).Err?
    ensures ExportBlogPost(dir, slug, PDF, filename, timestamp).Err?
  {
  }

  // ---------------------------------------------------------------------------
  // create_export_bundle

  const BUNDLE_DEFAULT: seq<string> := [MARKDOWN, HTML, JSON]

  /** The name a writer's file has inside the bundle. */
  function BundleName(slug: string, w: Writer): string {
    BaseName(slug + ("." + Extension(w)))
  }

  /** The file one format adds to the bundle: none for an unrecognised
      format. */
  function BundleItem(slug: string, format: string): seq<string> {
    match WriterFor(format)
    case None => []
    case Some(w) => [BundleName(slug, w)]
  }

  /** The files each format adds, in order. */
  function BundleItems(slug: string, formats: seq<string>): (r: seq<seq<string>>)
    ensures |r| == |formats| && forall i :: 0 <= i < |formats| ==> r[i] == BundleItem(slug, formats[i])
  {
    seq(|formats|, i requires 0 <= i < |formats| => BundleItem(slug, formats[i]))
  }

  /** `create_export_bundle`: the names of the files it archives, and the
      name of the archive. */
  method CreateExportBundle(p: BlogPost, formats: Option<seq<string>>, timestamp: string)
    returns (files: seq<string>, zipName: string)
    ensures files == Flatten(BundleItems(p.slug, if formats.None? then BUNDLE_DEFAULT else formats.value))
    ensures zipName == GenerateFilename(p.slug, timestamp, "zip")
  {
    var fs := if formats.None? then BUNDLE_DEFAULT else formats.value;
    var items := BundleItems(p.slug, fs);
    files := [];
    for i := 0 to |fs|
      invariant files == Flatten(items[..i])
    {
      FlattenStep(items, i);
      var w := WriterFor(fs[i]);
      if w.None? {
        continue;
      }
      files := files + [BundleName(p.slug, w.value)];
    }
    assert items[..|fs|] == items;
    zipName := GenerateFilename(p.slug, timestamp, "zip");
  }

  /** The files of a concatenation of format lists are the files of the
      first list followed by those of the second; a recognised format adds
      its one file and any other adds nothing. */
  lemma BundleFilesSpec(slug: string, a: seq<string>, b: seq<string>, format: string)
    ensures Flatten(BundleItems(slug, a + b)) == Flatten(BundleItems(slug, a)) + Flatten(BundleItems(slug, b))
    ensures WriterFor(format).None? ==> Flatten(BundleItems(slug, [format])) == []
    ensures WriterFor(format).Some? ==> Flatten(BundleItems(slug, [format])) == [BundleName(slug, WriterFor(format).value)]
  {
    assert BundleItems(slug, a + b) == BundleItems(slug, a) + BundleItems(slug, b);
    FlattenAppend(BundleItems(slug, a), BundleItems(slug, b));
    FlattenOne(BundleItem(slug, format));
    assert BundleItems(slug, [format]) == [BundleItem(slug, format)];
  }

  /** With the default formats and a slug without '/', the bundle holds
      the Markdown, HTML and JSON files named after the slug. */
  lemma BundleDefault(slug: string)
    requires forall j :: 0 <= j < |slug| ==> slug[j] != '/'
    ensures Flatten(BundleItems(slug, BUNDLE_DEFAULT)) == [slug + ".md", slug + ".html", slug + ".json"]
  {
    var items := BundleItems(slug, BUNDLE_DEFAULT);
    DefaultItem(slug, MARKDOWN, ".md");
    DefaultItem(slug, HTML, ".html");
    DefaultItem(slug, JSON, ".json");
    assert items == [[slug + ".md"], [slug + ".html"], [slug + ".json"]];
    FlattenSingletons(items);
  }

  /** A recognised format adds the file named after the slug with its
      writer's extension. */
  lemma DefaultItem(slug: string, format: string, ext: string)
    requires forall j :: 0 <= j < |slug| ==> slug[j] != '/'
    requires WriterFor(format).Some? && "." + Extension(WriterFor(format).value) == ext
    requires forall j :: 0 <= j < |ext| ==> ext[j] != '/'
    ensures BundleItem(slug, format) == [slug + ext]
  {
    NoSlash(slug, ext);
  }

  lemma NoSlash(slug: string, ext: string)
    requires forall j :: 0 <= j < |slug| ==> slug[j] != '/'
    requires forall j :: 0 <= j < |ext| ==> ext[j] != '/'
    ensures BaseName(slug + ext) == slug + ext
  {
    var s := slug + ext;
    assert forall j :: 0 <= j < |s| ==> s[j] != '/' by {
      forall j | 0 <= j < |s| ensures s[j] != '/' {
        if j < |slug| { assert s[j] == slug[j]; } else { assert s[j] == ext[j - |slug|]; }
      }
    }
  }

  // ---------------------------------------------------------------------------
  // batch_export

  /** The writer each format name selects, in order. */
  function WritersOf(formats: seq<string>): (r: seq<Option<Writer>>)
    ensures |r| == |formats| && forall j :: 0 <= j < |formats| ==> r[j] == WriterFor(formats[j])
  {
    seq(|formats|, j requires 0 <= j < |formats| => WriterFor(formats[j]))
  }

  /** The path one export adds to the batch: none when the format selects
      no writer or the write fails (the exception is logged and skipped). */
  function BatchItem(dir: string, slug: string, writer: Option<Writer>, timestamp: string, fails: bool): seq<string> {
    if writer.None? || fails then [] else [OutputPath(dir, GenerateFilename(slug, timestamp, Extension(writer.value)))]
  }

  /** A batch item is the path the single export returns, when that export
      is accepted and written. */
  lemma BatchItemExport(dir: string, slug: string, format: string, timestamp: string, fails: bool)
    ensures var r := ExportBlogPost(dir, slug, format, None, timestamp);
      BatchItem(dir, slug, WriterFor(format), timestamp, fails) == if r.Ok? && !fails then [r.value.path] else []
  {
  }

  /** The paths each format adds for post `i`, in order. */
  function PostItems(dir: string, slug: string, i: nat, writers: seq<Option<Writer>>, stamp: (nat, nat) -> string,
                     fails: (nat, nat) -> bool): (r: seq<seq<string>>)
    ensures |r| == |writers|
    ensures forall j :: 0 <= j < |writers| ==> r[j] == BatchItem(dir, slug, writers[j], stamp(i, j), fails(i, j))
  {
    seq(|writers|, j requires 0 <= j < |writers| => BatchItem(dir, slug, writers[j], stamp(i, j), fails(i, j)))
  }

  /** The paths each post adds, post after post. `stamp(i, j)` is the
      clock reading and `fails(i, j)` whether the write failed for post `i`
      in format `j`. */
  function BatchItems(dir: string, slugs: seq<string>, writers: seq<Option<Writer>>, stamp: (nat, nat) -> string,
                      fails: (nat, nat) -> bool): (r: seq<seq<string>>)
    ensures |r| == |slugs|
    ensures forall i :: 0 <= i < |slugs| ==> r[i] == Flatten(PostItems(dir, slugs[i], i, writers, stamp, fails))
  {
    seq(|slugs|, i requires 0 <= i < |slugs| => Flatten(PostItems(dir, slugs[i], i, writers, stamp, fails)))
  }

  function SlugsOf(posts: seq<BlogPost>): (r: seq<string>)
    reads posts
    ensures |r| == |posts| && forall i :: 0 <= i < |posts| ==> r[i] == posts[i].slug
  {
    seq(|posts|, i reads posts requires 0 <= i < |posts| => posts[i].slug)
  }

  /** `batch_export`: the paths written into `outputDir`, with "markdown"
      as the default format list. */
  method BatchExport(posts: seq<BlogPost>, formats: Option<seq<string>>, outputDir: string,
                     stamp: (nat, nat) -> string, fails: (nat, nat) -> bool)
    returns (paths: seq<string>)
    ensures paths == Flatten(BatchItems(outputDir, SlugsOf(posts), WritersOf(if formats.None? then [MARKDOWN] else formats.value),
                                        stamp, fails))
  {
    var fs := if formats.None? then [MARKDOWN] else formats.value;
    var all := BatchItems(outputDir, SlugsOf(posts), WritersOf(fs), stamp, fails);
    paths := [];
    for i := 0 to |posts|
      invariant paths == Flatten(all[..i])
    {
      var added := ExportPost(outputDir, posts[i].slug, i, fs, stamp, fails);
      FlattenStep(all, i);
      paths := paths + added;
    }
    assert all[..|posts|] == all;
  }

  /** The inner loop of `batch_export`: the paths written for post `i`, one
      format after the other. */
  method ExportPost(dir: string, slug: string, i: nat, formats: seq<string>, stamp: (nat, nat) -> string,
                    fails: (nat, nat) -> bool)
    returns (added: seq<string>)
    ensures added == Flatten(PostItems(dir, slug, i, WritersOf(formats), stamp, fails))
  {
    var items := PostItems(dir, slug, i, WritersOf(formats), stamp, fails);
    added := [];
    for j := 0 to |formats|
      invariant added == Flatten(items[..j])
    {
      FlattenStep(items, j);
      var r := ExportBlogPost(dir, slug, formats[j], None, stamp(i, j));
      BatchItemExport(dir, slug, formats[j], stamp(i, j), fails(i, j));
      if r.Ok? && !fails(i, j) {
        added := added + [r.value.path];
      }
    }
    assert items[..|formats|] == items;
  }

  /** At most one path per post and format. */
  lemma BatchBound(dir: string, slugs: seq<string>, writers: seq<Option<Writer>>, stamp: (nat, nat) -> string,
                   fails: (nat, nat) -> bool)
    ensures |Flatten(BatchItems(dir, slugs, writers, stamp, fails))| <= |slugs| * |writers|
  {
    var all := BatchItems(dir, slugs, writers, stamp, fails);
    forall i | 0 <= i < |slugs| ensures |all[i]| <= |writers| {
      FlattenBound(PostItems(dir, slugs[i], i, writers, stamp, fails), 1);
    }
    FlattenBound(all, |writers|);
  }

  /** When every format of post `i` selects a writer and no write fails, the
      post adds one path per format, in the formats' order. */
  lemma PostOrder(dir: string, slug: string, i: nat, writers: seq<Option<Writer>>, stamp: (nat, nat) -> string,
                  fails: (nat, nat) -> bool)
    requires forall j :: 0 <= j < |writers| ==> writers[j].Some? && !fails(i, j)
    ensures var r := Flatten(PostItems(dir, slug, i, writers, stamp, fails));
      && |r| == |writers|
      && forall j :: 0 <= j < |writers| ==> r[j] == OutputPath(dir, GenerateFilename(slug, stamp(i, j), Extension(writers[j].value)))
  {
    var items := PostItems(dir, slug, i, writers, stamp, fails);
    forall j | 0 <= j < |writers|
      ensures items[j] == [OutputPath(dir, GenerateFilename(slug, stamp(i, j), Extension(writers[j].value)))]
    {
    }
    FlattenSingletons(items);
  }

  /** When every format selects a writer and no write fails, the batch holds
      one path per post and format, post-major: the path of post `i` in
      format `j` is at `i * |writers| + j`. */
  lemma BatchOrder(dir: string, slugs: seq<string>, writers: seq<Option<Writer>>, stamp: (nat, nat) -> string,
                   fails: (nat, nat) -> bool, i: nat, j: nat)
    requires forall j :: 0 <= j < |writers| ==> writers[j].Some?
    requires forall i, j :: 0 <= i < |slugs| && 0 <= j < |writers| ==> !fails(i, j)
    requires i < |slugs| && j < |writers|
    ensures var r := Flatten(BatchItems(dir, slugs, writers, stamp, fails));
      && |r| == |slugs| * |writers|
      && 0 <= i * |writers| + j < |r|
      && r[i * |writers| + j] == OutputPath(dir, GenerateFilename(slugs[i], stamp(i, j), Extension(writers[j].value)))
  {
    var all := BatchItems(dir, slugs, writers, stamp, fails);
    var m := |writers|;
    forall k | 0 <= k < |all| ensures |all[k]| == m {
      PostCount(dir, slugs[k], k, writers, stamp, fails);
    }
    FlattenUniformAt(all, m, i, j);
    PostPathAt(dir, slugs[i], i, writers, stamp, fails, j);
  }

  /** The path post `i` adds for format `j` when every format selects a
      writer and no write fails. */
  lemma PostPathAt(dir: string, slug: string, i: nat, writers: seq<Option<Writer>>, stamp: (nat, nat) -> string,
                   fails: (nat, nat) -> bool, j: nat)
    requires forall j :: 0 <= j < |writers| ==> writers[j].Some?
    requires forall j :: 0 <= j < |writers| ==> !fails(i, j)
    requires j < |writers|
    ensures var r := Flatten(PostItems(dir, slug, i, writers, stamp, fails));
      j < |r| && r[j] == OutputPath(dir, GenerateFilename(slug, stamp(i, j), Extension(writers[j].value)))
  {
    PostOrder(dir, slug, i, writers, stamp, fails);
  }

  /** The number of paths post `i` adds when every format selects a writer
      and no write fails. */
  lemma PostCount(dir: string, slug: string, i: nat, writers: seq<Option<Writer>>, stamp: (nat, nat) -> string,
                  fails: (nat, nat) -> bool)
    requires forall j :: 0 <= j < |writers| ==> writers[j].Some?
    requires forall j :: 0 <= j < |writers| ==> !fails(i, j)
    ensures |Flatten(PostItems(dir, slug, i, writers, stamp, fails))| == |writers|
  {
    PostOrder(dir, slug, i, writers, stamp, fails);
  }

  /** The four supported format names select writers, so a batch over them
      meets `BatchOrder`'s first requirement. */
  lemma SupportedWriters(formats: seq<string>)
    requires forall j :: 0 <= j < |formats| ==> formats[j] in [MARKDOWN, HTML, JSON, WORDPRESS]
    ensures forall j :: 0 <= j < |formats| ==> WritersOf(formats)[j].Some?
  {
  }
}
