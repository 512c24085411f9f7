/** The helpers of the Streamlit front end (app.py): the API-key check, the
    rendering of one agent's output, the HTML preview and the Markdown
    download of a finished post, and the bookkeeping of the progress
    callback. The clock, `json.dumps` and Python's repr of containers are
    parameters. */
module AppHelpers {
  import opened Values
  import opened Text
  import opened Sequences

  // ---------------------------------------------------------------------------
  // validate_api_keys

  const REQUIRED_KEYS: seq<string> := ["OPENAI_API_KEY", "GEMINI_API_KEY"]

  /** `not os.getenv(key)`: the variable is unset or empty. */
  predicate Unset(env: string -> Option<string>, key: string) {
    env(key).None? || env(key).value == ""
  }

  /** What each required key adds to the missing list. */
  function MissingItems(keys: seq<string>, env: string -> Option<string>): (r: seq<seq<string>>)
    ensures |r| == |keys|
    ensures forall i :: 0 <= i < |keys| ==> r[i] == if Unset(env, keys[i]) then [keys[i]] else []
  {
    seq(|keys|, i requires 0 <= i < |keys| => if Unset(env, keys[i]) then [keys[i]] else [])
  }

  /** `validate_api_keys()` with the environment as a parameter. */
  method ValidateApiKeys(env: string -> Option<string>) returns (ok: bool, missing: seq<string>)
    ensures missing == Flatten(MissingItems(REQUIRED_KEYS, env))
    ensures ok <==> missing == []
  {
    var items := MissingItems(REQUIRED_KEYS, env);
    missing := [];
    for i := 0 to |REQUIRED_KEYS|
      invariant missing == Flatten(items[..i])
    {
      FlattenStep(items, i);
      if Unset(env, REQUIRED_KEYS[i]) {
        missing := missing + [REQUIRED_KEYS[i]];
      }
    }
    assert items[..|REQUIRED_KEYS|] == items;
    ok := |missing| == 0;
  }

  /** The missing list names the unset keys among the two, OpenAI first;
      it is empty exactly when both are set. */
  lemma MissingKeysSpec(env: string -> Option<string>)
    ensures Flatten(MissingItems(REQUIRED_KEYS, env))
      == (if Unset(env, "OPENAI_API_KEY") then ["OPENAI_API_KEY"] else [])
       + (if Unset(env, "GEMINI_API_KEY") then ["GEMINI_API_KEY"] else [])
    ensures Flatten(MissingItems(REQUIRED_KEYS, env)) == [] <==>
      !Unset(env, "OPENAI_API_KEY") && !Unset(env, "GEMINI_API_KEY")
  {
    var items := MissingItems(REQUIRED_KEYS, env);
    FlattenStep(items, 0);
    FlattenStep(items, 1);
    assert items[..0] == [] && items[..2] == items;
  }

  // ---------------------------------------------------------------------------
  // format_agent_output

  /** `str(item)` for each item. */
  function ItemTexts(items: seq<Value>, repr: Value -> string): (r: seq<string>)
    ensures |r| == |items| && forall i :: 0 <= i < |items| ==> r[i] == PyStr(items[i], repr)
  {
    seq(|items|, i requires 0 <= i < |items| => PyStr(items[i], repr))
  }

  /** `format_agent_output(name, output)`: a dictionary as an indented JSON
      block (which fails when the encoder fails), a list as bullet lines,
      anything else as its `str()`. */
  function FormatAgentOutput(name: string, output: Value, dumps: Value -> Result<string, string>,
                             repr: Value -> string): Result<string, string> {
    var head := "**" + name + "**\n";
    match output
    case Obj(_) =>
      (match dumps(output)
       case Err(e) => Err(e)
       case Ok(json) => Ok(head + "```json\n" + json + "\n```"))
    case List(items) => Ok(head + "- " + Join(ItemTexts(items, repr), "\n- "))
    case _ => Ok(head + PyStr(output, repr))
  }

  /** Each line prefixed with "- ". */
  function Bullets(lines: seq<string>): (r: seq<string>)
    ensures |r| == |lines| && forall i :: 0 <= i < |lines| ==> r[i] == "- " + lines[i]
  {
    seq(|lines|, i requires 0 <= i < |lines| => "- " + lines[i])
  }

  /** Joining with "\n- " after a leading "- " puts every line on a line of
      its own behind "- ". */
  lemma {:induction false} BulletJoin(lines: seq<string>)
    requires lines != []
    ensures "- " + Join(lines, "\n- ") == Join(Bullets(lines), "\n")
    decreases |lines|
  {
    if |lines| > 1 {
      var rest := lines[1..];
      BulletJoin(rest);
      assert Bullets(lines)[1..] == Bullets(rest);
      var j := Join(rest, "\n- ");
      calc {
        "- " + Join(lines, "\n- ");
        "- " + (lines[0] + "\n- " + j);
        ("- " + lines[0]) + "\n" + ("- " + j);
        Bullets(lines)[0] + "\n" + Join(Bullets(rest), "\n");
      }
    }
  }

  /** A non-empty list renders as the bold name and one "- " line per item,
      in order; an empty one leaves a lone "- ". A dictionary fails exactly
      when the encoder does; other values never fail. */
  lemma FormatAgentOutputSpec(name: string, output: Value, dumps: Value -> Result<string, string>,
                              repr: Value -> string)
    ensures output.List? && output.items != [] ==>
      FormatAgentOutput(name, output, dumps, repr)
        == Ok("**" + name + "**\n" + Join(Bullets(ItemTexts(output.items, repr)), "\n"))
    ensures output.List? && output.items == [] ==> FormatAgentOutput(name, output, dumps, repr) == Ok("**" + name + "**\n- ")
    ensures FormatAgentOutput(name, output, dumps, repr).Err? <==> output.Obj? && dumps(output).Err?
    ensures !output.Obj? && !output.List? ==>
      FormatAgentOutput(name, output, dumps, repr) == Ok("**" + name + "**\n" + PyStr(output, repr))
  {
    if output.List? {
      var head := "**" + name + "**\n";
      var texts := ItemTexts(output.items, repr);
      if texts == [] {
        assert Join(texts, "\n- ") == "";
        assert head + "- " + "" == "**" + name + "**\n- ";
      } else {
        BulletJoin(texts);
        assert head + "- " + Join(texts, "\n- ") == head + ("- " + Join(texts, "\n- "));
      }
    }
  }

  // ---------------------------------------------------------------------------
  // create_html_preview

  const UNTITLED := "Untitled Blog Post"

  /** `content.get("title", "Untitled Blog Post")`, rendered. */
  function PostTitle(content: seq<(string, Value)>, repr: Value -> string): string {
    PyStr(GetOr(content, "title", Str(UNTITLED)), repr)
  }

  /** The title falls back to "Untitled Blog Post"; a string title is kept. */
  lemma PostTitleSpec(content: seq<(string, Value)>, repr: Value -> string)
    ensures !HasKey(content, "title") ==> PostTitle(content, repr) == UNTITLED
    ensures forall s :: Get(content, "title") == Some(Str(s)) ==> PostTitle(content, repr) == s
  {
  }

  /** `max(1, words // 200)` */
  function ReadingTime(words: nat): nat {
    if words / 200 < 1 then 1 else words / 200
  }

  /** At least a minute; a minute per full 200 words from 200 words on; more
      words never read faster. */
  lemma ReadingTimeSpec(words: nat, more: nat)
    ensures ReadingTime(words) >= 1
    ensures words < 400 ==> ReadingTime(words) == 1
    ensures words >= 200 ==> ReadingTime(words) * 200 <= words < ReadingTime(words) * 200 + 200
    ensures words <= more ==> ReadingTime(words) <= ReadingTime(more)
  {
  }

  /** The error `for x in v` raises on a value that is not iterable. */
  function NotIterable(v: Value): string {
    "'" + TypeName(v) + "' object is not iterable"
  }

  /** One tag badge. */
  function TagSpan(tag: Value, repr: Value -> string): string {
    "<span class=\"tag\">" + PyStr(tag, repr) + "</span>"
  }

  function TagSpans(tags: seq<Value>, repr: Value -> string): (r: seq<string>)
    ensures |r| == |tags| && forall i :: 0 <= i < |tags| ==> r[i] == TagSpan(tags[i], repr)
  {
    seq(|tags|, i requires 0 <= i < |tags| => TagSpan(tags[i], repr))
  }

  /** `"".join(f'<span class="tag">{tag}</span>' for tag in tags)` */
  function TagsHtml(tags: Value, repr: Value -> string): Result<string, string> {
    match Iterate(tags)
    case None => Err(NotIterable(tags))
    case Some(items) => Ok(Flatten(TagSpans(items, repr)))
  }

  /** Badge `k` of a tag list sits after the badges before it. */
  lemma TagsHtmlAt(tags: seq<Value>, repr: Value -> string, k: nat)
    requires k < |tags|
    ensures var r := TagsHtml(List(tags), repr);
      r.Ok? && OccursAt(r.value, TagSpan(tags[k], repr), |Flatten(TagSpans(tags, repr)[..k])|)
  {
    var spans := TagSpans(tags, repr);
    FlattenAt(spans, k);
    OccursBetween(Flatten(spans[..k]), spans[k], Flatten(spans[k + 1..]));
  }

  /** `section.get(key, '')`, rendered. */
  function SectionField(section: seq<(string, Value)>, key: string, repr: Value -> string): string {
    PyStr(GetOr(section, key, Str("")), repr)
  }

  /** The two lines the preview adds for one section; a section that is not
      a dictionary has no `get`. */
  function SectionHtml(section: Value, repr: Value -> string): Result<string, string> {
    if !section.Obj? then Err(NoAttribute(section, "get"))
    else
      Ok("<h2>" + SectionField(section.entries, "heading", repr) + "</h2>\n"
         + "<p>" + SectionField(section.entries, "content", repr) + "</p>\n")
  }

  function SectionHtmls(sections: seq<Value>, repr: Value -> string): (r: seq<Result<string, string>>)
    ensures |r| == |sections| && forall i :: 0 <= i < |sections| ==> r[i] == SectionHtml(sections[i], repr)
  {
    seq(|sections|, i requires 0 <= i < |sections| => SectionHtml(sections[i], repr))
  }

  /** The article body: the sections' lines when there is a `sections` key,
      otherwise the whole content as JSON in one paragraph. */
  function Article(content: seq<(string, Value)>, repr: Value -> string,
                   dumps: Value -> Result<string, string>): Result<string, string> {
    match Get(content, "sections")
    case Some(v) =>
      (match Iterate(v)
       case None => Err(NotIterable(v))
       case Some(sections) => Collect(SectionHtmls(sections, repr)))
    case None =>
      (match dumps(Obj(content))
       case Err(e) => Err(e)
       case Ok(json) => Ok("<p>" + json + "</p>"))
  }

  /** The `article_content +=` loop of `create_html_preview`. */
  method ArticleContent(content: seq<(string, Value)>, repr: Value -> string,
                        dumps: Value -> Result<string, string>)
    returns (r: Result<string, string>)
    ensures r == Article(content, repr, dumps)
  {
    var v := Get(content, "sections");
    if v.None? {
      var json := dumps(Obj(content));
      if json.Err? {
        return Err(json.error);
      }
      return Ok("<p>" + json.value + "</p>");
    }
    var it := Iterate(v.value);
    if it.None? {
      return Err(NotIterable(v.value));
    }
    var sections := it.value;
    ghost var rs := SectionHtmls(sections, repr);
    var article := "";
    for i := 0 to |sections|
      invariant Collect(rs[..i]) == Ok(article)
    {
      CollectStep(rs, i);
      var h := SectionHtml(sections[i], repr);
      if h.Err? {
        CollectSticky(rs, i + 1);
        return Err(h.error);
      }
      article := article + h.value;
    }
    assert rs[..|sections|] == rs;
    return Ok(article);
  }

  /** With a `sections` list of dictionaries, the article is their heading
      and paragraph lines in order; the first entry that is not a dictionary
      makes it fail; without the key it is the JSON paragraph. */
  lemma ArticleSpec(content: seq<(string, Value)>, repr: Value -> string, dumps: Value -> Result<string, string>,
                    sections: seq<Value>)
    requires Get(content, "sections") == Some(List(sections))
    ensures (forall i :: 0 <= i < |sections| ==> sections[i].Obj?) ==>
      Article(content, repr, dumps)
        == Ok(Flatten(seq(|sections|, i requires 0 <= i < |sections| => SectionHtml(sections[i], repr).value)))
    ensures forall k :: 0 <= k < |sections| && !sections[k].Obj? && (forall i :: 0 <= i < k ==> sections[i].Obj?) ==>
      Article(content, repr, dumps) == Err(NoAttribute(sections[k], "get"))
  {
    var rs := SectionHtmls(sections, repr);
    if forall i :: 0 <= i < |sections| ==> sections[i].Obj? {
      CollectAllOk(rs);
      assert seq(|rs|, i requires 0 <= i < |rs| => rs[i].value)
          == seq(|sections|, i requires 0 <= i < |sections| => SectionHtml(sections[i], repr).value);
    }
    forall k | 0 <= k < |sections| && !sections[k].Obj? && (forall i :: 0 <= i < k ==> sections[i].Obj?)
      ensures Article(content, repr, dumps) == Err(NoAttribute(sections[k], "get"))
    {
      CollectFirstErr(rs, k);
    }
  }

  lemma ArticleFallback(content: seq<(string, Value)>, repr: Value -> string, dumps: Value -> Result<string, string>)
    requires !HasKey(content, "sections")
    ensures Article(content, repr, dumps) ==
      match dumps(Obj(content)) case Err(e) => Err(e) case Ok(json) => Ok("<p>" + json + "</p>")
  {
  }

  /** The template of the preview up to and between its fields. The style
      sheet (app.py:181-237) is the parameter `style`. */
  const PAGE_OPEN := "\n    <!DOCTYPE html>\n    <html lang=\"en\">\n    <head>\n        <meta charset=\"UTF-8\">\n"
    + "        <meta name=\"viewport\" content=\"width=device-width, initial-scale=1.0\">\n        <title>"
  const STYLE_OPEN := "</title>\n        <style>\n"
  const BODY_OPEN := "        </style>\n    </head>\n    <body>\n        <div class=\"content\">\n            <h1>"
  const META_OPEN := "</h1>\n            <div class=\"meta\">\n                <span>Generated on "
  const READING_OPEN := "</span> | \n                <span>Reading time: "
  const TAGS_OPEN := " min</span>\n            </div>\n            <div class=\"tags\">\n                "
  const ARTICLE_OPEN := "\n            </div>\n            <div class=\"article-content\">\n                "
  const PAGE_CLOSE := "\n            </div>\n        </div>\n    </body>\n    </html>\n    "

  /** The template between the title element and the heading. */
  function StyleBlock(style: string): string {
    STYLE_OPEN + style + BODY_OPEN
  }

  /** The template between the heading and the reading time. */
  function MetaBlock(date: string): string {
    META_OPEN + date + READING_OPEN
  }

  /** The template between the reading time and the article. */
  function TagsBlock(tags: string): string {
    TAGS_OPEN + tags + ARTICLE_OPEN
  }

  /** `html_template.format(...)` */
  function PreviewPage(title: string, style: string, date: string, minutes: nat, tags: string, article: string): string {
    PAGE_OPEN + title + StyleBlock(style) + title + MetaBlock(date) + NatToString(minutes) + TagsBlock(tags) + article + PAGE_CLOSE
  }

  /** The preview's values, in the order the source computes them. */
  function Preview(content: seq<(string, Value)>, date: string, style: string, repr: Value -> string,
                   dumps: Value -> Result<string, string>): Result<string, string> {
    match TagsHtml(GetOr(content, "tags", List([])), repr)
    case Err(e) => Err(e)
    case Ok(tags) =>
      var minutes := ReadingTime(WordCount(repr(Obj(content))));
      match Article(content, repr, dumps)
      case Err(e) => Err(e)
      case Ok(article) => Ok(PreviewPage(PostTitle(content, repr), style, date, minutes, tags, article))
  }

  /** `create_html_preview(content)` with the date rendering as a parameter. */
  method CreateHtmlPreview(content: seq<(string, Value)>, date: string, style: string, repr: Value -> string,
                           dumps: Value -> Result<string, string>)
    returns (r: Result<string, string>)
    ensures r == Preview(content, date, style, repr, dumps)
  {
    var title := PostTitle(content, repr);
    var tags := TagsHtml(GetOr(content, "tags", List([])), repr);
    if tags.Err? {
      return Err(tags.error);
    }
    var minutes := ReadingTime(WordCount(repr(Obj(content))));
    var article := ArticleContent(content, repr, dumps);
    if article.Err? {
      return Err(article.error);
    }
    r := Ok(PreviewPage(title, style, date, minutes, tags.value, article.value));
  }

  /** The page carries the title in its `title` element and in its heading,
      the reading time after "Reading time: ", and the article inside the
      article block. */
  lemma PreviewPageLayout(title: string, style: string, date: string, minutes: nat, tags: string, article: string)
    ensures var r := PreviewPage(title, style, date, minutes, tags, article);
      var h := |PAGE_OPEN| + |title| + |StyleBlock(style)|;
      var m := h + |title| + |MetaBlock(date)|;
      var a := m + |NatToString(minutes)| + |TagsBlock(tags)|;
      && OccursAt(r, title, |PAGE_OPEN|)
      && OccursAt(r, title, h)
      && OccursAt(r, NatToString(minutes), m)
      && OccursAt(r, article, a)
  {
    Interleaved(PAGE_OPEN, title, StyleBlock(style), title, MetaBlock(date),
                NatToString(minutes), TagsBlock(tags), article, PAGE_CLOSE);
  }

  /** The preview fails exactly when the tags cannot be iterated or the
      article fails; otherwise it shows the title (by default "Untitled Blog
      Post") and a reading time of at least one minute. */
  lemma PreviewSpec(content: seq<(string, Value)>, date: string, style: string, repr: Value -> string,
                    dumps: Value -> Result<string, string>)
    ensures Preview(content, date, style, repr, dumps).Ok? <==>
      TagsHtml(GetOr(content, "tags", List([])), repr).Ok? && Article(content, repr, dumps).Ok?
    ensures !HasKey(content, "tags") ==> TagsHtml(GetOr(content, "tags", List([])), repr) == Ok("")
    ensures Preview(content, date, style, repr, dumps).Ok? ==>
      Preview(content, date, style, repr, dumps).value == PreviewPage(
        PostTitle(content, repr), style, date, ReadingTime(WordCount(repr(Obj(content)))),
        TagsHtml(GetOr(content, "tags", List([])), repr).value, Article(content, repr, dumps).value)
    ensures ReadingTime(WordCount(repr(Obj(content)))) >= 1
  {
    if !HasKey(content, "tags") {
      assert TagSpans([], repr) == [];
    }
  }

  // ---------------------------------------------------------------------------
  // create_markdown_content

  /** The two entries one section adds: its heading line and its text. */
  function SectionMarkdown(section: Value, repr: Value -> string): Result<seq<string>, string> {
    if !section.Obj? then Err(NoAttribute(section, "get"))
    else Ok(["\n## " + SectionField(section.entries, "heading", repr) + "\n",
             SectionField(section.entries, "content", repr) + "\n"])
  }

  function SectionMarkdowns(sections: seq<Value>, repr: Value -> string): (r: seq<Result<seq<string>, string>>)
    ensures |r| == |sections| && forall i :: 0 <= i < |sections| ==> r[i] == SectionMarkdown(sections[i], repr)
  {
    seq(|sections|, i requires 0 <= i < |sections| => SectionMarkdown(sections[i], repr))
  }

  /** One tag in backticks. */
  function Backticked(tags: seq<Value>, repr: Value -> string): (r: seq<string>)
    ensures |r| == |tags| && forall i :: 0 <= i < |tags| ==> r[i] == "`" + PyStr(tags[i], repr) + "`"
  {
    seq(|tags|, i requires 0 <= i < |tags| => "`" + PyStr(tags[i], repr) + "`")
  }

  /** The tags entry: present only with a `tags` key. */
  function TagsMarkdown(content: seq<(string, Value)>, repr: Value -> string): Result<seq<string>, string> {
    match Get(content, "tags")
    case None => Ok([])
    case Some(v) =>
      match Iterate(v)
      case None => Err(NotIterable(v))
      case Some(tags) => Ok(["\n**Tags:** " + Join(Backticked(tags, repr), " ") + "\n"])
  }

  /** The entries after the tags: two per section, or the JSON block. */
  function BodyMarkdown(content: seq<(string, Value)>, repr: Value -> string,
                        dumps: Value -> Result<string, string>): Result<seq<string>, string> {
    match Get(content, "sections")
    case Some(v) =>
      (match Iterate(v)
       case None => Err(NotIterable(v))
       case Some(sections) => Collect(SectionMarkdowns(sections, repr)))
    case None =>
      (match dumps(Obj(content))
       case Err(e) => Err(e)
       case Ok(json) => Ok(["\n```json\n" + json + "\n```\n"]))
  }

  /** The entries of `md_content`. */
  function MarkdownEntries(content: seq<(string, Value)>, date: string, repr: Value -> string,
                           dumps: Value -> Result<string, string>): Result<seq<string>, string> {
    var head := ["# " + PostTitle(content, repr) + "\n", "*Generated on " + date + "*\n"];
    match TagsMarkdown(content, repr)
    case Err(e) => Err(e)
    case Ok(tags) =>
      match BodyMarkdown(content, repr, dumps)
      case Err(e) => Err(e)
      case Ok(body) => Ok(head + tags + body)
  }

  /** `create_markdown_content(content)` with the date rendering as a
      parameter: the entries joined by newlines. */
  method CreateMarkdownContent(content: seq<(string, Value)>, date: string, repr: Value -> string,
                               dumps: Value -> Result<string, string>)
    returns (r: Result<string, string>)
    ensures r == match MarkdownEntries(content, date, repr, dumps)
                 case Err(e) => Err(e)
                 case Ok(entries) => Ok(Join(entries, "\n"))
  {
    var md := ["# " + PostTitle(content, repr) + "\n", "*Generated on " + date + "*\n"];
    var tags := TagsMarkdown(content, repr);
    if tags.Err? {
      return Err(tags.error);
    }
    md := md + tags.value;
    var body := MarkdownBody(content, repr, dumps);
    if body.Err? {
      return Err(body.error);
    }
    md := md + body.value;
    return Ok(Join(md, "\n"));
  }

  /** The loop of `create_markdown_content` over the sections, or the JSON
      fallback. */
  method MarkdownBody(content: seq<(string, Value)>, repr: Value -> string, dumps: Value -> Result<string, string>)
    returns (r: Result<seq<string>, string>)
    ensures r == BodyMarkdown(content, repr, dumps)
  {
    var v := Get(content, "sections");
    if v.None? {
      var json := dumps(Obj(content));
      if json.Err? {
        return Err(json.error);
      }
      return Ok(["\n```json\n" + json.value + "\n```\n"]);
    }
    var it := Iterate(v.value);
    if it.None? {
      return Err(NotIterable(v.value));
    }
    var sections := it.value;
    ghost var rs := SectionMarkdowns(sections, repr);
    var md: seq<string> := [];
    for i := 0 to |sections|
      invariant Collect(rs[..i]) == Ok(md)
    {
      CollectStep(rs, i);
      var part := SectionMarkdown(sections[i], repr);
      if part.Err? {
        CollectSticky(rs, i + 1);
        return Err(part.error);
      }
      md := md + part.value;
    }
    assert rs[..|sections|] == rs;
    return Ok(md);
  }

  /** With a list of dictionary sections, the body holds one "## heading"
      entry and one text entry per section, in order. */
  lemma SectionBlocks(content: seq<(string, Value)>, repr: Value -> string, dumps: Value -> Result<string, string>,
                      sections: seq<Value>, k: nat)
    requires Get(content, "sections") == Some(List(sections))
    requires forall i :: 0 <= i < |sections| ==> sections[i].Obj?
    requires k < |sections|
    ensures var b := BodyMarkdown(content, repr, dumps);
      && b.Ok?
      && |b.value| == |sections| * 2
      && 0 <= k * 2 < k * 2 + 1 < |b.value|
      && b.value[k * 2] == "\n## " + SectionField(sections[k].entries, "heading", repr) + "\n"
      && b.value[k * 2 + 1] == SectionField(sections[k].entries, "content", repr) + "\n"
  {
    var rs := SectionMarkdowns(sections, repr);
    CollectAllOk(rs);
    var parts := seq(|rs|, i requires 0 <= i < |rs| => rs[i].value);
    FlattenUniformAt(parts, 2, k, 0);
    FlattenUniformAt(parts, 2, k, 1);
    assert k * 2 + 0 == k * 2;
  }

  /** The entries open with the title (by default "Untitled Blog Post") and
      the date line; a tags entry follows exactly when there is a `tags`
      key, its tags in backticks separated by spaces; the JSON block stands
      in for the sections when there is no `sections` key. */
  lemma MarkdownEntriesSpec(content: seq<(string, Value)>, date: string, repr: Value -> string,
                            dumps: Value -> Result<string, string>)
    ensures var e := MarkdownEntries(content, date, repr, dumps);
      e.Ok? <==> TagsMarkdown(content, repr).Ok? && BodyMarkdown(content, repr, dumps).Ok?
    ensures var e := MarkdownEntries(content, date, repr, dumps);
      e.Ok? ==>
        && e.value[0] == "# " + PostTitle(content, repr) + "\n"
        && e.value[1] == "*Generated on " + date + "*\n"
        && |e.value| == 2 + |TagsMarkdown(content, repr).value| + |BodyMarkdown(content, repr, dumps).value|
    ensures !HasKey(content, "tags") ==> TagsMarkdown(content, repr) == Ok([])
    ensures forall tags :: Get(content, "tags") == Some(List(tags)) ==>
      TagsMarkdown(content, repr) == Ok(["\n**Tags:** " + Join(Backticked(tags, repr), " ") + "\n"])
    ensures !HasKey(content, "sections") && dumps(Obj(content)).Ok? ==>
      BodyMarkdown(content, repr, dumps) == Ok(["\n```json\n" + dumps(Obj(content)).value + "\n```\n"])
  {
  }

  // ---------------------------------------------------------------------------
  // update_callback

  /** An entry of `intermediate_states`. */
  datatype Intermediate = Intermediate(progress: real, message: Value, currentAgent: Value, timestamp: string,
                                       snapshot: Value)

  /** An entry of `steps`. */
  datatype Step = Step(agent: Value, output: Value, timestamp: string)

  /** An entry of `execution_history` (type "agent_complete"). */
  datatype Completion = Completion(agent: Value, timestamp: string, outputSize: nat)

  /** What one callback reads from the orchestrator's update, or the error
      reading it raises. */
  datatype Update = Update(message: Value, currentAgent: Value, stateDict: seq<(string, Value)>, outputs: Value)

  function ReadUpdate(state: Value): Result<Update, string> {
    if !state.Obj? then Err(NoAttribute(state, "get"))
    else
      var stateDict := GetOr(state.entries, "state", Obj([]));
      var message := GetOr(state.entries, "message", Str(""));
      if !stateDict.Obj? then Err(NoAttribute(stateDict, "get"))
      else
        Ok(Update(message, GetOr(stateDict.entries, "current_agent", Str("")), stateDict.entries,
                  GetOr(stateDict.entries, "intermediate_outputs", Obj([]))))
  }

  /** `current_agent and message.startswith("Completed")`: the message is
      only looked at when the agent is truthy, and must then be a string. */
  function Completes(u: Update): Result<bool, string> {
    if !Truthy(u.currentAgent) then Ok(false)
    else if !u.message.Str? then Err(NoAttribute(u.message, "startswith"))
    else Ok(StartsWith(u.message.s, "Completed"))
  }

  /** `intermediate_outputs.get(current_agent.replace("Agent", ""), {})`:
      the `get` attribute is looked up before its argument is evaluated. */
  function CompletedOutput(u: Update): Result<Value, string> {
    if !u.outputs.Obj? then Err(NoAttribute(u.outputs, "get"))
    else if !u.currentAgent.Str? then Err(NoAttribute(u.currentAgent, "replace"))
    else Ok(GetOr(u.outputs.entries, ReplaceAll(u.currentAgent.s, "Agent", ""), Obj([])))
  }

  /** `agent_outputs` after the callback: a copy of truthy intermediate
      outputs, which must then have a `copy` method; otherwise unchanged. */
  function CopiedOutputs(u: Update, current: Value): Result<Value, string> {
    if !Truthy(u.outputs) then Ok(current)
    else match CopyOf(u.outputs)
      case None => Err(NoAttribute(u.outputs, "copy"))
      case Some(c) => Ok(c)
  }

  /** The step and history entry one callback records, if any: `clock(1)`
      and `clock(2)` are the clock readings of the two entries. */
  function Recorded(u: Update, clock: nat -> string, repr: Value -> string): Result<Option<(Step, Completion)>, string> {
    match Completes(u)
    case Err(e) => Err(e)
    case Ok(false) => Ok(None)
    case Ok(true) =>
      match CompletedOutput(u)
      case Err(e) => Err(e)
      case Ok(out) => Ok(Some((Step(u.currentAgent, out, clock(1)), Completion(u.currentAgent, clock(2), |PyStr(out, repr)|))))
  }

  /** The session state the callback updates. */
  class Session {
    var currentProgress: real
    var orchestratorState: Value
    var intermediateStates: seq<Intermediate>
    var agentOutputs: Value
    var steps: seq<Step>
    var executionHistory: seq<Completion>

    /** Every completed step has its history entry, for the same agent. */
    predicate Valid()
      reads this
    {
      |steps| == |executionHistory|
      && forall i :: 0 <= i < |steps| ==> steps[i].agent == executionHistory[i].agent
    }

    constructor ()
      ensures Valid()
      ensures intermediateStates == [] && steps == [] && executionHistory == [] && agentOutputs == Obj([])
    {
      currentProgress := 0.0;
      orchestratorState := Obj([]);
      intermediateStates := [];
      agentOutputs := Obj([]);
      steps := [];
      executionHistory := [];
    }

    /** `update_callback(progress, state)`: `clock(k)` is the k-th reading of
        the clock in the call. An error stops the callback and leaves what it
        had already recorded. */
    method UpdateCallback(progress: real, state: Value, clock: nat -> string, repr: Value -> string)
      returns (err: Option<string>)
      requires Valid()
      modifies this
      ensures Valid()
      ensures currentProgress == progress && orchestratorState == state
      ensures ReadUpdate(state).Err? ==>
        && err == Some(ReadUpdate(state).error)
        && intermediateStates == old(intermediateStates) && agentOutputs == old(agentOutputs)
        && steps == old(steps) && executionHistory == old(executionHistory)
      ensures ReadUpdate(state).Ok? ==>
        var u := ReadUpdate(state).value;
        && intermediateStates == old(intermediateStates) + [Intermediate(progress, u.message, u.currentAgent, clock(0), Obj(u.stateDict))]
        && Applied(u, clock, repr, old(agentOutputs), old(steps), old(executionHistory), err)
    {
      currentProgress := progress;
      orchestratorState := state;
      var read := ReadUpdate(state);
      if read.Err? {
        return Some(read.error);
      }
      var u := read.value;
      intermediateStates := intermediateStates + [Intermediate(progress, u.message, u.currentAgent, clock(0), Obj(u.stateDict))];
      err := Apply(u, clock, repr);
    }

    /** What the callback does after recording the intermediate state, from
        the outputs, steps and history it found and to the error it
        returns. */
    ghost predicate Applied(u: Update, clock: nat -> string, repr: Value -> string, outputs0: Value,
                            steps0: seq<Step>, history0: seq<Completion>, err: Option<string>)
      reads this
    {
      match CopiedOutputs(u, outputs0)
      case Err(e) =>
        err == Some(e) && agentOutputs == outputs0 && steps == steps0 && executionHistory == history0
      case Ok(outputs) =>
        && agentOutputs == outputs
        && match Recorded(u, clock, repr)
           case Err(e) => err == Some(e) && steps == steps0 && executionHistory == history0
           case Ok(None) => err == None && steps == steps0 && executionHistory == history0
           case Ok(Some(entry)) =>
             err == None && steps == steps0 + [entry.0] && executionHistory == history0 + [entry.1]
    }

    /** Copies the intermediate outputs and records a completed agent. */
    method Apply(u: Update, clock: nat -> string, repr: Value -> string) returns (err: Option<string>)
      requires Valid()
      modifies this
      ensures Valid()
      ensures currentProgress == old(currentProgress) && orchestratorState == old(orchestratorState)
      ensures intermediateStates == old(intermediateStates)
      ensures Applied(u, clock, repr, old(agentOutputs), old(steps), old(executionHistory), err)
    {
      var outputs := CopiedOutputs(u, agentOutputs);
      if outputs.Err? {
        return Some(outputs.error);
      }
      agentOutputs := outputs.value;
      var entry := Recorded(u, clock, repr);
      if entry.Err? {
        return Some(entry.error);
      }
      if entry.value.Some? {
        steps := steps + [entry.value.value.0];
        executionHistory := executionHistory + [entry.value.value.1];
      }
      return None;
    }
  }

  /** A step is recorded exactly for a truthy agent whose message starts
      with "Completed" and whose output can be looked up; the step and its
      history entry name the same agent, and the history entry measures the
      output's text. */
  lemma RecordedSpec(u: Update, clock: nat -> string, repr: Value -> string)
    ensures Recorded(u, clock, repr).Ok? && Recorded(u, clock, repr).value.Some? <==>
      Truthy(u.currentAgent) && u.message.Str? && StartsWith(u.message.s, "Completed") && CompletedOutput(u).Ok?
    ensures !Truthy(u.currentAgent) ==> Recorded(u, clock, repr) == Ok(None)
    ensures u.message.Str? && !StartsWith(u.message.s, "Completed") ==> Recorded(u, clock, repr) == Ok(None)
    ensures Recorded(u, clock, repr).Ok? && Recorded(u, clock, repr).value.Some? ==>
      var entry := Recorded(u, clock, repr).value.value;
      && entry.0.agent == entry.1.agent == u.currentAgent
      && entry.0.output == CompletedOutput(u).value
      && entry.1.outputSize == |PyStr(entry.0.output, repr)|
    ensures Truthy(u.currentAgent) && !u.message.Str? ==> Recorded(u, clock, repr) == Err(NoAttribute(u.message, "startswith"))
    ensures Truthy(u.currentAgent) && u.message.Str? && StartsWith(u.message.s, "Completed") ==>
      && (!u.outputs.Obj? ==> Recorded(u, clock, repr) == Err(NoAttribute(u.outputs, "get")))
      && (u.outputs.Obj? && !u.currentAgent.Str? ==> Recorded(u, clock, repr) == Err(NoAttribute(u.currentAgent, "replace")))
      && (u.outputs.Obj? && u.currentAgent.Str? ==>
            Recorded(u, clock, repr).Ok? && Recorded(u, clock, repr).value.Some?
            && Recorded(u, clock, repr).value.value.0.output
               == GetOr(u.outputs.entries, ReplaceAll(u.currentAgent.s, "Agent", ""), Obj([])))
  {
  }

  /** Only truthy intermediate outputs replace the session's; those that
      are lists or dictionaries replace it with an equal copy. */
  lemma CopiedOutputsSpec(u: Update, current: Value)
    ensures !Truthy(u.outputs) ==> CopiedOutputs(u, current) == Ok(current)
    ensures Truthy(u.outputs) && (u.outputs.List? || u.outputs.Obj?) ==> CopiedOutputs(u, current) == Ok(u.outputs)
    ensures CopiedOutputs(u, current).Err? <==> Truthy(u.outputs) && !u.outputs.List? && !u.outputs.Obj?
  {
  }
}
