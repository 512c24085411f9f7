/** The two template exporters of utilities/advanced_exporters.py: a minimal
    WordPress RSS item and a Medium-style Markdown page, both built from a
    content dictionary with defaults for the missing fields. */
module AdvancedExporters {
  import opened Values
  import opened Text

  // ---------------------------------------------------------------------------
  // Fields

  /** `content.get('title', 'Untitled')`, as an f-string renders it. */
  function TitleText(content: seq<(string, Value)>, repr: Value -> string): string {
    PyStr(GetOr(content, "title", Str("Untitled")), repr)
  }

  /** `content.get('content', '')`, as an f-string renders it. */
  function BodyText(content: seq<(string, Value)>, repr: Value -> string): string {
    PyStr(GetOr(content, "content", Str("")), repr)
  }

  /** A missing title renders as "Untitled" and a missing body as nothing; a
      string field renders as itself. */
  lemma FieldDefaults(content: seq<(string, Value)>, repr: Value -> string)
    ensures !HasKey(content, "title") ==> TitleText(content, repr) == "Untitled"
    ensures !HasKey(content, "content") ==> BodyText(content, repr) == ""
    ensures forall s :: Get(content, "title") == Some(Str(s)) ==> TitleText(content, repr) == s
    ensures forall s :: Get(content, "content") == Some(Str(s)) ==> BodyText(content, repr) == s
  {
  }

  // ---------------------------------------------------------------------------
  // create_wordpress_export

  const RSS_OPEN := "<?xml version=\"1.0\" encoding=\"UTF-8\"?>\n<rss version=\"2.0\"\n"
    + "    xmlns:excerpt=\"http://wordpress.org/export/1.2/excerpt/\"\n"
    + "    xmlns:content=\"http://purl.org/rss/1.0/modules/content/\"\n"
    + "    xmlns:wp=\"http://wordpress.org/export/1.2/\">\n<channel>\n    <item>\n"
  const INDENT := "        "
  const POST_TYPE := "<wp:post_type>post</wp:post_type>"
  const DRAFT := "<wp:status>draft</wp:status>"
  const RSS_CLOSE := "    </item>\n</channel>\n</rss>"

  /** The text between the parts that vary or matter: up to the title
      element, from it to the CDATA section, from that to the post type,
      between the post type and the status, and after the status. */
  const ITEM_OPEN := RSS_OPEN + INDENT
  const BODY_OPEN := "\n" + INDENT + "<content:encoded>"
  const BODY_CLOSE := "</content:encoded>\n" + INDENT
  const LINE_BREAK := "\n" + INDENT
  const ITEM_CLOSE := "\n" + RSS_CLOSE

  /** The title element of the item. */
  function TitleElement(title: string): string {
    "<title>" + title + "</title>"
  }

  /** The body inside a CDATA section of the `content:encoded` element. */
  function CdataBody(body: string): string {
    "<![CDATA[" + body + "]]>"
  }

  /** The export for a rendered title and body. */
  function WordPressItem(title: string, body: string): string {
    ITEM_OPEN + TitleElement(title) + BODY_OPEN + CdataBody(body) + BODY_CLOSE + POST_TYPE + LINE_BREAK + DRAFT + ITEM_CLOSE
  }

  /** `create_wordpress_export(content)` */
  function WordPressExport(content: seq<(string, Value)>, repr: Value -> string): string {
    WordPressItem(TitleText(content, repr), BodyText(content, repr))
  }

  /** The item holds the title element right after the channel header, then the
      body in a CDATA section, then the post type "post" and the status
      "draft", whatever the content. */
  lemma WordPressLayout(title: string, body: string)
    ensures var r := WordPressItem(title, body);
      var t := TitleElement(title);
      var b := CdataBody(body);
      var i := |ITEM_OPEN| + |t| + |BODY_OPEN|;
      var j := i + |b| + |BODY_CLOSE|;
      && OccursAt(r, t, |ITEM_OPEN|)
      && OccursAt(r, b, i)
      && OccursAt(r, POST_TYPE, j)
      && OccursAt(r, DRAFT, j + |POST_TYPE| + |LINE_BREAK|)
  {
    var t := TitleElement(title);
    var b := CdataBody(body);
    Interleaved(ITEM_OPEN, t, BODY_OPEN, b, BODY_CLOSE, POST_TYPE, LINE_BREAK, DRAFT, ITEM_CLOSE);
  }

  // ---------------------------------------------------------------------------
  // create_medium_export

  /** `sep.join(v)`: every item visited must be a string. Joining a value
      that is not iterable, or one with a non-string item, raises a
      TypeError. */
  function JoinValues(v: Value, sep: string): (r: Result<string, string>)
  {
    match Iterate(v)
    case None => Err("can only join an iterable")
    case Some(items) =>
      match FirstNonStr(items)
      case Some(k) => Err("sequence item " + NatToString(k) + ": expected str instance, " + TypeName(items[k]) + " found")
      case None => Ok(Join(Strings(items), sep))
  }

  /** The position of the first item that is not a string. */
  function FirstNonStr(items: seq<Value>): (r: Option<nat>)
    ensures r.Some? ==> r.value < |items| && !items[r.value].Str? && forall j :: 0 <= j < r.value ==> items[j].Str?
    ensures r.None? ==> forall j :: 0 <= j < |items| ==> items[j].Str?
  {
    if items == [] then None
    else if !items[0].Str? then Some(0)
    else
      match FirstNonStr(items[1..])
      case None => None
      case Some(k) => Some(k + 1)
  }

  /** The texts of string items. */
  function Strings(items: seq<Value>): (r: seq<string>)
    requires forall j :: 0 <= j < |items| ==> items[j].Str?
    ensures |r| == |items| && forall j :: 0 <= j < |items| ==> r[j] == items[j].s
  {
    seq(|items|, j requires 0 <= j < |items| => items[j].s)
  }

  /** Joining succeeds exactly on an iterable of strings and then joins
      their texts; otherwise the error names the first offending item. */
  lemma JoinValuesSpec(v: Value, sep: string)
    ensures JoinValues(v, sep).Ok? <==>
      Iterate(v).Some? && forall j :: 0 <= j < |Iterate(v).value| ==> Iterate(v).value[j].Str?
    ensures JoinValues(v, sep).Ok? ==> JoinValues(v, sep).value == Join(Strings(Iterate(v).value), sep)
    ensures v.List? && (forall j :: 0 <= j < |v.items| ==> v.items[j].Str?) ==>
      JoinValues(v, sep) == Ok(Join(Strings(v.items), sep))
    ensures forall k :: v.List? && 0 <= k < |v.items| && !v.items[k].Str? && (forall j :: 0 <= j < k ==> v.items[j].Str?) ==>
      JoinValues(v, sep) == Err("sequence item " + NatToString(k) + ": expected str instance, " + TypeName(v.items[k]) + " found")
  {
    if Iterate(v).Some? {
      var items := Iterate(v).value;
      match FirstNonStr(items)
      case None =>
      case Some(k) =>
        assert !items[k].Str?;
    }
    forall k | v.List? && 0 <= k < |v.items| && !v.items[k].Str? && (forall j :: 0 <= j < k ==> v.items[j].Str?)
      ensures JoinValues(v, sep) == Err("sequence item " + NatToString(k) + ": expected str instance, " + TypeName(v.items[k]) + " found")
    {
      assert FirstNonStr(v.items) == Some(k);
    }
  }

  /** The tags line's separator. */
  const TAG_SEP := ", "

  /** The Markdown page around the joined tags. */
  function MediumPage(title: string, tags: string, body: string): string {
    "# " + title + "\n\nTags: " + tags + "\n\n---\n\n" + body + "\n"
  }

  /** `create_medium_export(content)`: the tags default to an empty list;
      joining them may raise. */
  function MediumExport(content: seq<(string, Value)>, repr: Value -> string): Result<string, string> {
    match JoinValues(GetOr(content, "tags", List([])), TAG_SEP)
    case Err(e) => Err(e)
    case Ok(tags) => Ok(MediumPage(TitleText(content, repr), tags, BodyText(content, repr)))
  }

  /** The page opens with the title heading; the tags line follows a blank
      line; the body follows a `---` line and a blank line and ends the page
      with a newline. */
  lemma MediumLayout(title: string, tags: string, body: string)
    ensures var r := MediumPage(title, tags, body);
      && StartsWith(r, "# " + title + "\n")
      && OccursAt(r, "\nTags: " + tags + "\n", |title| + 3)
      && OccursAt(r, "\n---\n\n" + body + "\n", |r| - |body| - 7)
      && r[|r| - |body| - 1..] == body + "\n"
  {
    var r := MediumPage(title, tags, body);
    var a := "# " + title + "\n";
    var tagLine := "\nTags: " + tags + "\n";
    var tail := "\n---\n\n" + body + "\n";
    assert r == a + tagLine + tail;
    OccursBetween(a, tagLine, tail);
    OccursBetween(a + tagLine, tail, "");
    assert |r| - |body| - 7 == |a + tagLine|;
    assert r[|r| - |body| - 1..] == tail[6..];
  }

  /** The Medium export succeeds exactly when the tags (an empty list when
      absent) join; it then lays out the rendered title, the tags joined by
      ", " and the rendered body. Without a tags key the tags line is empty. */
  lemma MediumExportSpec(content: seq<(string, Value)>, repr: Value -> string)
    ensures var tags := GetOr(content, "tags", List([]));
      MediumExport(content, repr).Ok? <==> JoinValues(tags, TAG_SEP).Ok?
    ensures var tags := GetOr(content, "tags", List([]));
      MediumExport(content, repr).Ok? ==>
        MediumExport(content, repr).value
          == MediumPage(TitleText(content, repr), JoinValues(tags, TAG_SEP).value, BodyText(content, repr))
    ensures !HasKey(content, "tags") ==>
      MediumExport(content, repr) == Ok(MediumPage(TitleText(content, repr), "", BodyText(content, repr)))
  {
    if !HasKey(content, "tags") {
      assert GetOr(content, "tags", List([])) == List([]);
      assert Strings([]) == [];
    }
  }
}
