/**
 The RSS 1.0 (RDF Site Summary 1.0) dialect parser.  It recognises documents
 whose root is `rdf:RDF` (section 5.2 of the RSS 1.0 specification) holding a
 `channel` element in the RSS 1.0 namespace (section 5.3), and it augments the
 items and channel built by the general RSS 0.90 parser with the RSS 1.0
 differences: a plain-text item `description`, a `content:encoded` body from
 the RSS 1.0 Content module, and the `rdf:about` resource URI (section 5.5).
 */
module Rss10Parser {
  import opened Wrappers
  import opened Xml

  /** The namespace of RSS 1.0 elements. */
  const RSS_URI: Uri := "http://purl.org/rss/1.0/"
  /** The RDF namespace of the `rdf:RDF` root and the `rdf:about` attribute. */
  const RDF_URI: Uri := "http://www.w3.org/1999/02/22-rdf-syntax-ns#"
  /** The namespace of the RSS 1.0 Content module (`content:encoded`). */
  const CONTENT_URI: Uri := "http://purl.org/rss/1.0/modules/content/"

  /** The dialect tag of the default RSS 1.0 parser. */
  const RSS_1_0_TYPE := "rss_1.0"
  /** The type tag of an HTML content body. */
  const HTML := "html"
  const TEXT_PLAIN := "text/plain"

  /** A typed item description; both fields may be null. */
  datatype Description = Description(descType: Option<string>, value: Option<string>)

  /** A typed item content body; both fields may be null. */
  datatype Content = Content(contentType: Option<string>, value: Option<string>)

  /**
   An RSS item, reduced to a representative subset of the wire model's
   fields: modules, categories, enclosures, guid and foreign markup are not
   held.  The "every other field is the general parse's" frame of `ParseItem`
   covers only the fields listed here.
   */
  datatype Item = Item(
    title: Option<string>,
    link: Option<string>,
    description: Option<Description>,
    content: Option<Content>,
    uri: Option<string>,
    author: Option<string>,
    comments: Option<string>,
    pubDate: Option<int>)

  /**
   An RSS channel, reduced to a representative subset of the wire model's
   fields: modules, image, text input and foreign markup are not held.  The
   frame of `ParseChannel` covers only the fields listed here.
   */
  datatype Channel = Channel(
    feedType: string,
    title: Option<string>,
    link: Option<string>,
    description: Option<string>,
    uri: Option<string>,
    items: seq<Item>)

  /** An item parse: from the document root and an item element to an item. */
  type ItemParse = (Element, Element) -> Item

  /**
   The inherited RSS 0.90 parsing of items and channels, which this parser
   calls first and then augments.  It is left uninterpreted: any pair of
   functions may be supplied.  The parse locale is folded into them.  The
   channel parse is handed the dialect tag of the parser in use and that
   parser's own item parse, the overriding `parseItem` it calls back into.
   */
  datatype GeneralParser = GeneralParser(
    parseItem: ItemParse,
    parseChannel: (Element, string, ItemParse) -> Channel)

  /**
   An inherited channel parse that tags the channel with the dialect tag it
   is given and builds the items by applying the item parse it is given to
   the item elements `itemElements` selects from the root.
   */
  ghost predicate DelegatesToCallbacks(g: GeneralParser, itemElements: Element -> seq<Element>) {
    forall root, tag, f {:trigger g.parseChannel(root, tag, f)} ::
      && g.parseChannel(root, tag, f).feedType == tag
      && g.parseChannel(root, tag, f).items == ParseAll(f, root, itemElements(root))
  }

  /** The item parse applied to each element of `es`, in document order. */
  function ParseAll(f: ItemParse, root: Element, es: seq<Element>): (items: seq<Item>)
    ensures |items| == |es|
    ensures forall i :: 0 <= i < |es| ==> items[i] == f(root, es[i])
  {
    if |es| == 0 then [] else [f(root, es[0])] + ParseAll(f, root, es[1..])
  }

  /**
   A parser instance: its dialect tag and the namespace its constructor hands
   to the general parser.  This parser's own lookups never read `ns`: they go
   through `RssNamespace`, which is the RSS 1.0 namespace for every instance.
   */
  datatype Parser = Parser(feedType: string, ns: Uri)

  /** The public constructor: dialect tag "rss_1.0", RSS 1.0 namespace. */
  function NewParser(): Parser {
    Parser(RSS_1_0_TYPE, RSS_URI)
  }

  /** The namespace of RSS elements; it is the RSS 1.0 one whatever the constructor was given. */
  function RssNamespace(p: Parser): (ns: Uri)
    ensures ns == NewParser().ns
  {
    RSS_URI
  }

  /**
   Detection: the root element is in the RDF namespace and has a `channel`
   child in the RSS 1.0 namespace.  Total: any document yields an answer.
   */
  predicate IsMyType(p: Parser, doc: Document)
    ensures IsMyType(p, doc) <==>
      && doc.root.ns == Some("http://www.w3.org/1999/02/22-rdf-syntax-ns#")
      && exists i :: 0 <= i < |doc.root.children| &&
           doc.root.children[i].name == "channel" &&
           doc.root.children[i].ns == Some("http://purl.org/rss/1.0/")
  {
    var defaultNs := doc.root.ns;
    var ok := defaultNs.Some? && defaultNs.value == RDF_URI;
    if ok then GetChild(doc.root, "channel", RssNamespace(p)).Some? else false
  }

  /** The plain-text description carried by an item's `description` element. */
  function ParseItemDescription(root: Element, eDesc: Element): (desc: Description)
    ensures desc.descType == Some("text/plain")
    ensures desc.value == Some(eDesc.text)
  {
    Description(Some(TEXT_PLAIN), Some(eDesc.text))
  }

  /**
   Parses an item: the general parse, then the description, the encoded
   content and the `rdf:about` URI when the item element carries them.
   */
  function ParseItem(p: Parser, g: GeneralParser, root: Element, eItem: Element): (item: Item)
    ensures var base := g.parseItem(root, eItem);
      item.(description := base.description, content := base.content, uri := base.uri) == base
    ensures var d := GetChild(eItem, "description", "http://purl.org/rss/1.0/");
      if d.Some? then item.description == Some(Description(Some("text/plain"), Some(d.value.text)))
      else item.description == g.parseItem(root, eItem).description
    ensures var c := GetChild(eItem, "encoded", "http://purl.org/rss/1.0/modules/content/");
      if c.Some? then item.content == Some(Content(Some("html"), Some(c.value.text)))
      else item.content == g.parseItem(root, eItem).content
    ensures var about := ("about", "http://www.w3.org/1999/02/22-rdf-syntax-ns#");
      if about in eItem.attrs then item.uri == Some(eItem.attrs[about])
      else item.uri == g.parseItem(root, eItem).uri
  {
    var item := g.parseItem(root, eItem);
    var item :=
      match GetChild(eItem, "description", RssNamespace(p))
      case Some(e) => item.(description := Some(ParseItemDescription(root, e)))
      case None => item;
    var item :=
      match GetChild(eItem, "encoded", CONTENT_URI)
      case Some(ce) => item.(content := Some(Content(Some(HTML), Some(ce.text))))
      case None => item;
    match GetAttributeValue(eItem, "about", RDF_URI)
    case Some(uri) => item.(uri := Some(uri))
    case None => item
  }

  /** This parser's item parse, the one the inherited channel parse calls back into. */
  function ItemParser(p: Parser, g: GeneralParser): ItemParse {
    (root, eItem) => ParseItem(p, g, root, eItem)
  }

  /**
   Parses the channel: the general parse, then the `rdf:about` URI of the
   RSS 1.0 `channel` element when present.  The `channel` element must exist
   (the source dereferences it unchecked); `IsMyType` guarantees it.
   */
  function ParseChannel(p: Parser, g: GeneralParser, root: Element): (channel: Channel)
    requires GetChild(root, "channel", RSS_URI).Some?
    ensures var base := g.parseChannel(root, p.feedType, ItemParser(p, g));
      channel.(uri := base.uri) == base
    ensures var eChannel := GetChild(root, "channel", "http://purl.org/rss/1.0/").value;
      var about := ("about", "http://www.w3.org/1999/02/22-rdf-syntax-ns#");
      if about in eChannel.attrs then channel.uri == Some(eChannel.attrs[about])
      else channel.uri == g.parseChannel(root, p.feedType, ItemParser(p, g)).uri
  {
    var channel := g.parseChannel(root, p.feedType, ItemParser(p, g));
    var eChannel := GetChild(root, "channel", RssNamespace(p)).value;
    match GetAttributeValue(eChannel, "about", RDF_URI)
    case Some(uri) => channel.(uri := Some(uri))
    case None => channel
  }

  /**
   When the item carries an RSS 1.0 `description` element, the parsed item's
   description is the one `ParseItemDescription` builds from that element.
   */
  lemma ParseItemUsesItemDescription(p: Parser, g: GeneralParser, root: Element, eItem: Element)
    requires GetChild(eItem, "description", RSS_URI).Some?
    ensures ParseItem(p, g, root, eItem).description ==
            Some(ParseItemDescription(root, GetChild(eItem, "description", RSS_URI).value))
  {
  }

  /**
   When the inherited channel parse uses the tag and item parse it is handed,
   the default parser's channel is tagged "rss_1.0" and holds, in document
   order, exactly the RSS 1.0 parse of each item element.
   */
  lemma ChannelCarriesRss10Items(g: GeneralParser, itemElements: Element -> seq<Element>, root: Element)
    requires DelegatesToCallbacks(g, itemElements)
    requires GetChild(root, "channel", RSS_URI).Some?
    ensures ParseChannel(NewParser(), g, root).feedType == "rss_1.0"
    ensures |ParseChannel(NewParser(), g, root).items| == |itemElements(root)|
    ensures forall i :: 0 <= i < |itemElements(root)| ==>
      ParseChannel(NewParser(), g, root).items[i] == ParseItem(NewParser(), g, root, itemElements(root)[i])
  {
    var p := NewParser();
    var base := g.parseChannel(root, p.feedType, ItemParser(p, g));
    assert base.feedType == "rss_1.0";
    assert base.items == ParseAll(ItemParser(p, g), root, itemElements(root));
  }

  /** The default parser's dialect tag and RSS namespace, for every parser instance. */
  lemma DialectConstants(p: Parser)
    ensures NewParser().feedType == "rss_1.0"
    ensures NewParser().ns == "http://purl.org/rss/1.0/"
    ensures RssNamespace(p) == NewParser().ns
  {
  }

  /** A document in any namespace other than RDF is rejected whatever its children. */
  lemma ForeignRootRejected(p: Parser, doc: Document)
    requires doc.root.ns != Some(RDF_URI)
    ensures !IsMyType(p, doc)
  {
  }

  /** An RDF root without an RSS 1.0 `channel` child is rejected. */
  lemma RdfRootWithoutChannelRejected(p: Parser, doc: Document)
    requires doc.root.ns == Some(RDF_URI)
    requires forall c | c in doc.root.children :: c.name != "channel" || c.ns != Some(RSS_URI)
    ensures !IsMyType(p, doc)
  {
  }

  /** A detected document always satisfies what `ParseChannel` needs. */
  lemma DetectionEnablesChannelParse(p: Parser, doc: Document)
    requires IsMyType(p, doc)
    ensures GetChild(doc.root, "channel", RSS_URI).Some?
  {
  }

  /**
   An item element with no RSS 1.0 description, no encoded content and no
   `rdf:about` is parsed exactly as the general parser parses it.
   */
  lemma PlainItemParsesAsGeneral(p: Parser, g: GeneralParser, root: Element, eItem: Element)
    requires forall c | c in eItem.children :: !Matches(c, "description", RSS_URI) && !Matches(c, "encoded", CONTENT_URI)
    requires ("about", RDF_URI) !in eItem.attrs
    ensures ParseItem(p, g, root, eItem) == g.parseItem(root, eItem)
  {
  }

  /**
   A small RSS 1.0 document: an `rdf:RDF` root holding a `channel` and one
   `item` with a description, an encoded body and an `rdf:about` URI.
   */
  lemma ScenarioRss10Document(g: GeneralParser)
    ensures
      var eItem := Element("item", Some(RSS_URI), map[("about", RDF_URI) := "http://example.org/item"],
        [Element("description", Some(RSS_URI), map[], [], "A description"),
         Element("encoded", Some(CONTENT_URI), map[], [], "<p>Body</p>")], "");
      var eChannel := Element("channel", Some(RSS_URI), map[("about", RDF_URI) := "http://example.org/"], [], "");
      var root := Element("RDF", Some(RDF_URI), map[], [eChannel, eItem], "");
      var item := ParseItem(NewParser(), g, root, eItem);
      && IsMyType(NewParser(), Document(root))
      && item.description == Some(Description(Some("text/plain"), Some("A description")))
      && item.content == Some(Content(Some("html"), Some("<p>Body</p>")))
      && item.uri == Some("http://example.org/item")
      && ParseChannel(NewParser(), g, root).uri == Some("http://example.org/")
  {
    var eDesc := Element("description", Some(RSS_URI), map[], [], "A description");
    var eEncoded := Element("encoded", Some(CONTENT_URI), map[], [], "<p>Body</p>");
    var eItem := Element("item", Some(RSS_URI), map[("about", RDF_URI) := "http://example.org/item"], [eDesc, eEncoded], "");
    var eChannel := Element("channel", Some(RSS_URI), map[("about", RDF_URI) := "http://example.org/"], [], "");
    var root := Element("RDF", Some(RDF_URI), map[], [eChannel, eItem], "");
    assert GetChild(root, "channel", RSS_URI) == Some(eChannel);
    assert GetChild(eItem, "description", RSS_URI) == Some(eDesc);
    assert eItem.children[1..] == [eEncoded];
    assert FirstMatch(eItem.children[1..], "encoded", CONTENT_URI) == Some(0);
    assert GetChild(eItem, "encoded", CONTENT_URI) == Some(eEncoded);
  }
}
