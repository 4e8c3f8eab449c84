# ROME feed library: RSS 1.0 parsing, Syndication module, person entity

This project models three pieces of the ROME syndication library in Dafny
and proves properties about them.

- **RSS 1.0 dialect parser** (`Rss10Parser`, over the element tree in `Xml`).
  Detection accepts a document whose root element is in the RDF namespace
  `http://www.w3.org/1999/02/22-rdf-syntax-ns#` and has a `channel` child in
  the RSS 1.0 namespace `http://purl.org/rss/1.0/`. Item parsing starts from
  the general RSS 0.90 parse and changes only three fields:
  - a plain-text `description`;
  - a `content:encoded` body typed `html`, in the RSS 1.0 Content module
    namespace `http://purl.org/rss/1.0/modules/content/`;
  - the `rdf:about` resource URI.

  Channel parsing adds only the channel's `rdf:about` URI. The XML tree is
  an algebraic datatype. `GetChild` is "the first child with this name and
  namespace". The inherited general parse is a pair of uninterpreted
  functions supplied as a parameter (`GeneralParser`). The channel parse is
  handed the parser's dialect tag and this parser's own item parse. This is
  how the inherited parse calls back into the overriding `parseItem`.
- **Syndication module** (`SyModuleImpl`). This is the RSS 1.0 Syndication
  module. Its state is a record of `updatePeriod`, `updateFrequency`
  (a Java `int`) and `updateBase` (a `Date`, held as its `long`
  millisecond instant), plus the module's contract URI. Setters return the
  new state. A setter that throws returns a `Step` whose state is the
  unchanged input.
  - The period must be one of `hourly`, `daily`, `weekly`, `monthly` or
    `yearly`.
  - Reading an unset base fails with a null dereference. So does setting a
    null base.
  - `CopyFrom` copies exactly the three declared properties. Its contract
    states them by name through `Property`.
- **Person** (`SyndPersonImpl`). A person has an optional name, e-mail and
  URI, plus an attached module list (`Modules.Module`).
  - The list reads as empty when it was never set or was set to null. That
    first read stores the empty list, and later reads return it.
  - `GetModule` returns the first attached module with the given URI.
  - `Equals` rejects every object that is not a person.

Java `null` is `Option.None`. The exceptions of the Syndication module
accessors are explicit results: `Result.Failure`, or `Step.thrown`. The one
null dereference in the RSS 1.0 parser is a precondition instead (see
"## Left out"). Dates are values, so the source's defensive copy of `Date`
on every get and set holds by construction: no caller can change a stored
date through an alias. The person's module list is a value too, although
the source shares it by reference (see "## Left out").

The doc comments of `SyModuleImpl` describe null as an allowed update
period and update base, and as the result of `getUpdateBase` when none is
set. The code does something else: it rejects a null period, and it
dereferences the date in both `getUpdateBase` and `setUpdateBase`. The
model follows the code.

RSS 1.0 detection does not call the RSS 0.90 detection predicate. It
checks only its own two conditions, and the model does the same.

## Model

| member | source | states |
|---|---|---|
| `Xml.GetChild` | src/main/java/com/sun/syndication/io/impl/RSS10Parser.java:69 | the result exists iff some child has that name and namespace; when it exists it is such a child, and no earlier child matches (first match) |
| `Rss10Parser.IsMyType` | src/main/java/com/sun/syndication/io/impl/RSS10Parser.java:59-75 | detection holds iff the root's namespace is present and is the RDF URI and some child of the root is `channel` in the RSS 1.0 namespace; total over all documents |
| `Rss10Parser.ForeignRootRejected` | src/main/java/com/sun/syndication/io/impl/RSS10Parser.java:65 | a root outside the RDF namespace (or with no namespace) is rejected whatever its children |
| `Rss10Parser.RdfRootWithoutChannelRejected` | src/main/java/com/sun/syndication/io/impl/RSS10Parser.java:66-73 | an RDF root with no RSS 1.0 `channel` child is rejected |
| `Rss10Parser.DetectionEnablesChannelParse` | src/main/java/com/sun/syndication/io/impl/RSS10Parser.java:127-128 | a detected document has the `channel` element that channel parsing dereferences |
| `Rss10Parser.ParseItem` | src/main/java/com/sun/syndication/io/impl/RSS10Parser.java:101-121 | description becomes `text/plain` with the RSS 1.0 `description` child's text when there is one, else the general parse's; content becomes `html` with the `content:encoded` text when present, else unchanged; `uri` becomes the `rdf:about` value when present, else unchanged; every other field is the general parse's |
| `Rss10Parser.ParseItemDescription` | src/main/java/com/sun/syndication/io/impl/RSS10Parser.java:136-141 | the description built from an item's `description` element is typed `text/plain` and holds that element's text |
| `Rss10Parser.ParseItemUsesItemDescription` | src/main/java/com/sun/syndication/io/impl/RSS10Parser.java:103-106 | when the item has an RSS 1.0 `description` element, the parsed item's description is the one built from that element |
| `Rss10Parser.RssNamespace` | src/main/java/com/sun/syndication/io/impl/RSS10Parser.java:84-86 | the RSS namespace of any parser instance is the default parser's, `http://purl.org/rss/1.0/`, whatever namespace its constructor was given |
| `Rss10Parser.PlainItemParsesAsGeneral` | src/main/java/com/sun/syndication/io/impl/RSS10Parser.java:103-118 | an item with none of the three RSS 1.0 markers parses exactly as the general parser parses it |
| `Rss10Parser.ParseChannel` | src/main/java/com/sun/syndication/io/impl/RSS10Parser.java:124-134 | needs the RSS 1.0 `channel` element; sets the channel `uri` to its `rdf:about` when present, otherwise keeps it; nothing else differs from the general parse, which is run with this parser's tag and its own item parse |
| `Rss10Parser.ChannelCarriesRss10Items` | src/main/java/com/sun/syndication/io/impl/RSS10Parser.java:38-125 | if the inherited channel parse tags the channel with the type it is given and builds each item through the item parse it is given, then the default parser's channel is tagged `rss_1.0` and its items are, in order, exactly `ParseItem` of the item elements |
| `Rss10Parser.DialectConstants` | src/main/java/com/sun/syndication/io/impl/RSS10Parser.java:35-40 | the default parser's tag is `rss_1.0` and its namespace `http://purl.org/rss/1.0/`, which is the RSS namespace of every parser instance |
| `Rss10Parser.ScenarioRss10Document` | src/main/java/com/sun/syndication/io/impl/RSS10Parser.java:101-134 | a concrete `rdf:RDF` document with a channel and an item is detected; its item gets the description text, an `html` content body and the item's `rdf:about`, and the channel gets its own `rdf:about` |
| `SyModuleImpl.SetUpdatePeriod` | src/main/java/com/sun/syndication/feed/module/SyModuleImpl.java:84-89 | succeeds iff the period is one of the five (null fails); on success the getter returns it and the other properties are unchanged; on failure an invalid-argument error is raised and the state is unchanged |
| `SyModuleImpl.SetUpdatePeriodRoundTrip` | src/main/java/com/sun/syndication/feed/module/SyModuleImpl.java:40-48 | each member of the period set is accepted and read back |
| `SyModuleImpl.SetUpdatePeriodRejectKeepsPeriod` | src/main/java/com/sun/syndication/feed/module/SyModuleImpl.java:85-87 | any other period, null included, raises `Invalid period [..]` and the previous period still reads back |
| `SyModuleImpl.SetUpdateFrequency` | src/main/java/com/sun/syndication/feed/module/SyModuleImpl.java:99-114 | every `int` is accepted and read back; period and base unchanged |
| `SyModuleImpl.GetUpdateBase` | src/main/java/com/sun/syndication/feed/module/SyModuleImpl.java:124-126 | fails with a null dereference exactly when no base is set; otherwise returns a date equal to the stored one |
| `SyModuleImpl.SetUpdateBase` | src/main/java/com/sun/syndication/feed/module/SyModuleImpl.java:137-139 | a null date fails and changes nothing; otherwise the getter then returns a date equal to the one given, and period and frequency are unchanged |
| `SyModuleImpl.CopyFrom` | src/main/java/com/sun/syndication/feed/module/SyModuleImpl.java:147-162 | every declared property (`updatePeriod`, `updateFrequency`, `updateBase`) of the result equals the source's; the target keeps its own contract URI |
| `SyModuleImpl.CopyFromSameContract` | src/main/java/com/sun/syndication/feed/module/SyModuleImpl.java:153-161 | between two modules of the same contract the copy reproduces the source exactly |
| `SyModuleImpl.CopyFromIdempotent` | src/main/java/com/sun/syndication/feed/module/SyModuleImpl.java:147-149 | copying from the same source a second time changes nothing |
| `SyModuleImpl.OperationsPreserveValid` | src/main/java/com/sun/syndication/feed/module/SyModuleImpl.java:59-139 | a fresh module has a null or listed period, and every setter and the copy keep it so |
| `SyModuleImpl.ScenarioHourly` | src/test/java/com/sun/syndication/unittest/TestSyndFeedRSS10DCSyModules.java:73-80 | period `hourly`, frequency 100 and base 2001-01-01T01:00+00:00 set in turn read back exactly |
| `SyndPersonImpl.SetGetRoundTrip` | src/main/java/com/sun/syndication/feed/synd/SyndPersonImpl.java:115-177 | name, e-mail and URI each read back the value set, null included |
| `SyndPersonImpl.SettersFrame` | src/main/java/com/sun/syndication/feed/synd/SyndPersonImpl.java:127-177 | setting one of name, e-mail, URI leaves the other two and the module list as read unchanged |
| `SyndPersonImpl.GetModules` | src/main/java/com/sun/syndication/feed/synd/SyndPersonImpl.java:187-192 | the list is never null: a stored list is returned as is and nothing changes; an absent list reads as empty and the empty list is stored; name, e-mail and URI unchanged |
| `SyndPersonImpl.ModulesDefaultEmpty` | src/main/java/com/sun/syndication/feed/synd/SyndPersonImpl.java:187-205 | the list reads as empty on a fresh person and after setting it to null |
| `SyndPersonImpl.SetModulesRoundTrip` | src/main/java/com/sun/syndication/feed/synd/SyndPersonImpl.java:203-205 | a non-null list that was set is the list read back |
| `SyndPersonImpl.GetModulesStable` | src/main/java/com/sun/syndication/feed/synd/SyndPersonImpl.java:188-191 | after a first read, later reads return the same list and change nothing, also across setting name, e-mail or URI |
| `SyndPersonImpl.GetModule` | src/main/java/com/sun/syndication/feed/synd/SyndPersonImpl.java:214-217 | returns none iff no attached module has the URI; otherwise the first attached module with that URI; the person afterwards is as after reading the list |
| `SyndPersonImpl.Equals` | src/main/java/com/sun/syndication/feed/synd/SyndPersonImpl.java:74-79 | false for null and for anything that is not a person; for a person, the bean comparison decides |

## Left out

- XML parsing and namespace resolution (JDOM): the model reads an already-built element tree. Namespaces are compared by URI only.
- `RSS090Parser` is not part of this model. The general `parseItem` and `parseChannel` are the uninterpreted `GeneralParser` parameter, and the parse locale is folded into it. The RDF and Content namespaces returned by `getRDFNamespace` and `getContentNamespace` are constants. The RDF value comes from the `isMyType` doc comment. The Content value is the URI of the RSS 1.0 Content module.
- `Rss10Parser.ParseChannel`: when the root has no RSS 1.0 `channel` child, the source throws a NullPointerException at RSS10Parser.java:128 by reading an attribute of the missing element. The model requires the element instead of returning that error. `IsMyType` guarantees the element, as `DetectionEnablesChannelParse` states.
- `Rss10Parser.ChannelCarriesRss10Items`: the inherited channel parse is not modelled. Its behaviour is assumed through `DelegatesToCallbacks`: it tags the channel with the given type and parses, in order, the item elements that some selector picks from the root, using the given item parse. Which elements the RSS 0.90 parser selects as items is left as a parameter.
- Whole-document parsing, the dialect dispatcher and the other dialects are not part of this model. For the same reason, the claim that RSS 1.0 detection implies RSS 0.90 detection is left out: the RSS 0.90 predicate is outside this model.
- `SyModuleImpl.CopyFrom`: `CopyFromHelper` is not part of this model. The reflective copy reads the source through its getters, so an unset update base would make the getter fail; the model copies the three fields directly instead.
- `getInterface` of `SyModuleImpl`, which returns the interface class, is left out because classes are not modelled.
- `ObjectBean`'s `clone`, `equals`, `hashCode` and `toString` are left out because they are reflective and not part of this model. `SyndPersonImpl.Equals` takes the bean comparison as a parameter and models only the type guard in front of it.
- `SyndPersonImpl.GetModules` and `SyndPersonImpl.SetModules`: the source returns the person's own list by reference from `getModules` and stores the caller's list by reference in `setModules`. Callers attach a module by changing that shared list in place (`getModules().add(m)`), and `getModule` then finds it without any person method having been called. The model's list is a value, so such an attach can be expressed only as `SetModules(q, Some(GetModules(q).1 + [m]))`. The model also cannot tell a stored empty list from an absent one, which the source's first read distinguishes only through that sharing.
- `Item` and `Channel` hold a representative subset of the wire model's fields; `ParseItem` and `ParseChannel` state their frame over that subset only. The RSS 0.90 parser and the full wire model are not modelled.
- `SyndPersonImpl.GetModulesStable`: Java object identity is not modelled, so "the same list" is stated as value equality.
- `SyndPersonImpl.GetModule`: `ModuleUtils` is not part of this model. The lookup is "first attached module whose URI equals the key", and the key is never null.
- Date text parsing (`DateParser`) and `Locale`: dates are their millisecond instants. The scenario's 2001-01-01T01:00+00:00 is written out as 978310800000.
- `Serializable`, the test harness and the Dublin Core module checks are left out. They are not part of the three modelled classes and are not modelled.
