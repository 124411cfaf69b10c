/** `OpenGraph.Data`: the immutable metadata snapshot and the ways it is built,
    from a stored record, from a YouTube embed response, empty, and by folding
    the `(property, content)` pairs of an HTML page head. */
module OpenGraphData {
  import opened Wrappers
  import opened Text

  /** A parsed `URL`; parsing itself (`URL(string:)`) is foreign and is passed
      in as `parse`, which answers `None` where Foundation answers `nil`. */
  datatype URL = URL(absoluteString: string)

  /** The value view of the metadata: every field is optional. */
  datatype Data = Data(
    imageUrl: Option<URL>,
    pageDescription: Option<string>,
    pageTitle: Option<string>,
    pageType: Option<string>,
    siteName: Option<string>,
    sourceUrl: Option<URL>,
    url: Option<URL>)

  /** The attributes of a stored `OGData` record; absent strings are stored as "". */
  datatype Record = Record(
    imageUrl: string,
    pageDescription: string,
    pageTitle: string,
    pageType: string,
    siteName: string,
    sourceUrl: string,
    url: string,
    updateDate: int)

  /** The record a fetch-or-insert creates for a reference it has never seen. */
  const EmptyRecord := Record("", "", "", "", "", "", "", 0)

  /** The decoded YouTube oEmbed response (`OpenGraph.Youtube`). */
  datatype Youtube = Youtube(title: string, type_: string, providerName: string, thumbnailUrl: string)

  /** One `<meta property=… content=…>` pair of the page head (`OpenGraph.HTML.Metadata`). */
  datatype Metadata = Metadata(property: string, content: string)

  /** `s.isEmpty ? nil : s` */
  function NonEmpty(s: string): (r: Option<string>)
    ensures r.None? <==> s == ""
    ensures r.Some? ==> r.value == s
  {
    if s == "" then None else Some(s)
  }

  /** `init(ogData:)`: empty strings become absent, the URL fields are parse results. */
  function FromRecord(rec: Record, parse: string -> Option<URL>): (d: Data)
    ensures d.pageDescription.None? <==> rec.pageDescription == ""
    ensures d.pageTitle.None? <==> rec.pageTitle == ""
    ensures d.pageType.None? <==> rec.pageType == ""
    ensures d.siteName.None? <==> rec.siteName == ""
    ensures d.pageDescription.Some? ==> d.pageDescription.value == rec.pageDescription
    ensures d.pageTitle.Some? ==> d.pageTitle.value == rec.pageTitle
    ensures d.pageType.Some? ==> d.pageType.value == rec.pageType
    ensures d.siteName.Some? ==> d.siteName.value == rec.siteName
    ensures d.imageUrl == parse(rec.imageUrl) && d.sourceUrl == parse(rec.sourceUrl) && d.url == parse(rec.url)
  {
    Data(
      imageUrl := parse(rec.imageUrl),
      pageDescription := NonEmpty(rec.pageDescription),
      pageTitle := NonEmpty(rec.pageTitle),
      pageType := NonEmpty(rec.pageType),
      siteName := NonEmpty(rec.siteName),
      sourceUrl := parse(rec.sourceUrl),
      url := parse(rec.url))
  }

  /** `init(youtube:sourceUrl:)` */
  function FromYoutube(youtube: Youtube, sourceUrl: string, parse: string -> Option<URL>): (d: Data)
    ensures d.pageDescription == None
    ensures d.sourceUrl == d.url == parse(sourceUrl)
    ensures d.pageTitle == Some(youtube.title) && d.pageType == Some(youtube.type_)
    ensures d.siteName == Some(youtube.providerName)
    ensures d.imageUrl == parse(youtube.thumbnailUrl)
  {
    var url := parse(sourceUrl);
    Data(
      imageUrl := parse(youtube.thumbnailUrl),
      pageDescription := None,
      pageTitle := Some(youtube.title),
      pageType := Some(youtube.type_),
      siteName := Some(youtube.providerName),
      sourceUrl := url,
      url := url)
  }

  /** `init()`: every field absent. */
  function Empty(): (d: Data)
    ensures d.imageUrl.None? && d.pageDescription.None? && d.pageTitle.None?
    ensures d.pageType.None? && d.siteName.None? && d.sourceUrl.None? && d.url.None?
  {
    Data(None, None, None, None, None, None, None)
  }

  /** A record nobody has filled in reads as the empty value, provided the
      empty string does not parse as a URL. */
  lemma FreshRecordIsEmpty(parse: string -> Option<URL>)
    requires parse("") == None
    ensures FromRecord(EmptyRecord, parse) == Empty()
  {
  }

  // ---------------------------------------------------------------------------
  // Classification of one metadata pair

  /** The field a metadata pair may update (`PropertyName`). */
  datatype PropertyName = Description | Image | SiteName | Title | Type | Url

  /** The marker each property name looks for in `meta.property`. */
  function Marker(p: PropertyName): string {
    match p
    case Description => "og:description"
    case Image => "og:image"
    case SiteName => "og:site_name"
    case Title => "og:title"
    case Type => "og:type"
    case Url => "og:url"
  }

  /** Position of a property name in the order the checks are made. */
  function Rank(p: PropertyName): nat {
    match p
    case Description => 0
    case Image => 1
    case SiteName => 2
    case Title => 3
    case Type => 4
    case Url => 5
  }

  /** The pair meets the condition that selects `p`: its property contains the
      marker, and for an image its content also contains "http". */
  predicate Matches(m: Metadata, p: PropertyName) {
    Contains(m.property, Marker(p)) && (p == Image ==> Contains(m.content, "http"))
  }

  /** `PropertyName.init?`: the first check in precedence order that matches. */
  function Classify(m: Metadata): (r: Option<PropertyName>)
    ensures r.Some? ==> Matches(m, r.value)
    ensures r.Some? ==> forall q :: Rank(q) < Rank(r.value) ==> !Matches(m, q)
    ensures r.None? ==> forall q :: !Matches(m, q)
  {
    if Contains(m.property, "og:description") then Some(Description)
    else if Contains(m.property, "og:image") && Contains(m.content, "http") then Some(Image)
    else if Contains(m.property, "og:site_name") then Some(SiteName)
    else if Contains(m.property, "og:title") then Some(Title)
    else if Contains(m.property, "og:type") then Some(Type)
    else if Contains(m.property, "og:url") then Some(Url)
    else None
  }

  /** An `og:image` pair whose content lacks "http" is not an image: it falls
      through to the later checks. */
  lemma ImageNeedsHttp(m: Metadata)
    requires Contains(m.property, "og:image") && !Contains(m.content, "http")
    ensures Classify(m) != Some(Image)
    ensures !Contains(m.property, "og:description") && !Contains(m.property, "og:site_name") && Contains(m.property, "og:title")
      ==> Classify(m) == Some(Title)
  {
  }

  // ---------------------------------------------------------------------------
  // The fold over the page's metadata list

  /** The value of one of the six classified fields of a `Data`. */
  datatype FieldValue = LinkValue(link: Option<URL>) | TextValue(text: Option<string>)

  function Get(d: Data, p: PropertyName): FieldValue {
    match p
    case Description => TextValue(d.pageDescription)
    case Image => LinkValue(d.imageUrl)
    case SiteName => TextValue(d.siteName)
    case Title => TextValue(d.pageTitle)
    case Type => TextValue(d.pageType)
    case Url => LinkValue(d.url)
  }

  /** The value a pair writes into field `p` when it is classified as `p`. */
  function EntryValue(m: Metadata, p: PropertyName, parse: string -> Option<URL>, unescape: string -> Option<string>): FieldValue {
    match p
    case Description => TextValue(Some(ReplaceNewlines(m.content)))
    case Image => LinkValue(parse(m.content))
    case SiteName => TextValue(Some(m.content))
    case Title => TextValue(Some(unescape(m.content).GetOr("")))
    case Type => TextValue(Some(m.content))
    case Url => LinkValue(parse(m.content))
  }

  /** `init(sourceUrl:)`: the start value of the fold. */
  function Start(sourceUrl: string, parse: string -> Option<URL>): (d: Data)
    ensures d.sourceUrl == parse(sourceUrl)
    ensures forall p :: Get(d, p) == Get(Empty(), p)
  {
    Data(None, None, None, None, None, parse(sourceUrl), None)
  }

  /** One step of the reduce: rebuild the value with the classified field replaced. */
  function Step(r: Data, m: Metadata, parse: string -> Option<URL>, unescape: string -> Option<string>): (d: Data)
    ensures d.sourceUrl == r.sourceUrl
    ensures Classify(m).None? ==> d == r
    ensures Classify(m).Some? ==> Get(d, Classify(m).value) == EntryValue(m, Classify(m).value, parse, unescape)
    ensures Classify(m).Some? ==> forall q :: q != Classify(m).value ==> Get(d, q) == Get(r, q)
  {
    match Classify(m)
    case None => r
    case Some(SiteName) => r.(siteName := Some(m.content))
    case Some(Type) => r.(pageType := Some(m.content))
    case Some(Title) => r.(pageTitle := Some(unescape(m.content).GetOr("")))
    case Some(Image) => r.(imageUrl := parse(m.content))
    case Some(Url) => r.(url := parse(m.content))
    case Some(Description) => r.(pageDescription := Some(ReplaceNewlines(m.content)))
  }

  /** `metaList.reduce(acc, step)`, first pair first. */
  function Reduce(acc: Data, metaList: seq<Metadata>, parse: string -> Option<URL>, unescape: string -> Option<string>): (d: Data)
    ensures d.sourceUrl == acc.sourceUrl
    decreases |metaList|
  {
    if metaList == [] then acc
    else Reduce(Step(acc, metaList[0], parse, unescape), metaList[1..], parse, unescape)
  }

  /** `init(html:sourceUrl:)` */
  function FromHtml(metaList: seq<Metadata>, sourceUrl: string, parse: string -> Option<URL>, unescape: string -> Option<string>): (d: Data)
    ensures d.sourceUrl == parse(sourceUrl)
    ensures metaList == [] ==> d == Start(sourceUrl, parse)
  {
    Reduce(Start(sourceUrl, parse), metaList, parse, unescape)
  }

  /** Appending a pair to the list applies one more step to the result. */
  lemma {:induction false} ReduceSnoc(acc: Data, metaList: seq<Metadata>, m: Metadata, parse: string -> Option<URL>, unescape: string -> Option<string>)
    ensures Reduce(acc, metaList + [m], parse, unescape) == Step(Reduce(acc, metaList, parse, unescape), m, parse, unescape)
    decreases |metaList|
  {
    if metaList == [] {
      assert [] + [m] == [m];
    } else {
      assert (metaList + [m])[1..] == metaList[1..] + [m];
      ReduceSnoc(Step(acc, metaList[0], parse, unescape), metaList[1..], m, parse, unescape);
    }
  }

  /** Index of the last pair of the list classified as `p`, if any. */
  function LastOf(metaList: seq<Metadata>, p: PropertyName): (r: Option<nat>)
    ensures r.Some? ==> r.value < |metaList| && Classify(metaList[r.value]) == Some(p)
    ensures r.Some? ==> forall j :: r.value < j < |metaList| ==> Classify(metaList[j]) != Some(p)
    ensures r.None? ==> forall j :: 0 <= j < |metaList| ==> Classify(metaList[j]) != Some(p)
    decreases |metaList|
  {
    if metaList == [] then None
    else match LastOf(metaList[1..], p)
      case Some(i) => Some(i + 1)
      case None => if Classify(metaList[0]) == Some(p) then Some(0) else None
  }

  /** Last wins: each field of the fold's result was written by the last pair
      classified to it, or keeps the start value when no pair was. */
  lemma {:induction false} LastWins(acc: Data, metaList: seq<Metadata>, p: PropertyName, parse: string -> Option<URL>, unescape: string -> Option<string>)
    ensures Get(Reduce(acc, metaList, parse, unescape), p) ==
      match LastOf(metaList, p)
      case None => Get(acc, p)
      case Some(i) => EntryValue(metaList[i], p, parse, unescape)
    decreases |metaList|
  {
    if metaList != [] {
      var next := Step(acc, metaList[0], parse, unescape);
      LastWins(next, metaList[1..], p, parse, unescape);
      match LastOf(metaList[1..], p)
      case Some(i) =>
        assert metaList[1..][i] == metaList[i + 1];
      case None =>
    }
  }

  /** The field values of a page's Data, pair by pair: the last classified pair, or absent. */
  lemma FromHtmlLastWins(metaList: seq<Metadata>, sourceUrl: string, p: PropertyName, parse: string -> Option<URL>, unescape: string -> Option<string>)
    ensures Get(FromHtml(metaList, sourceUrl, parse, unescape), p) ==
      match LastOf(metaList, p)
      case None => Get(Empty(), p)
      case Some(i) => EntryValue(metaList[i], p, parse, unescape)
  {
    LastWins(Start(sourceUrl, parse), metaList, p, parse, unescape);
  }

  /** A page description never holds a newline. */
  lemma DescriptionHasNoNewline(metaList: seq<Metadata>, sourceUrl: string, parse: string -> Option<URL>, unescape: string -> Option<string>)
    ensures var d := FromHtml(metaList, sourceUrl, parse, unescape);
      d.pageDescription.Some? ==> '\n' !in d.pageDescription.value
  {
    FromHtmlLastWins(metaList, sourceUrl, Description, parse, unescape);
    match LastOf(metaList, Description)
    case Some(i) => ReplaceNewlinesHasNoNewline(metaList[i].content);
    case None =>
  }

  /** A title whose unescaping fails is the empty string, not absent. */
  lemma TitleUnescapeFailure(metaList: seq<Metadata>, sourceUrl: string, parse: string -> Option<URL>, unescape: string -> Option<string>)
    requires LastOf(metaList, Title).Some?
    requires unescape(metaList[LastOf(metaList, Title).value].content) == None
    ensures FromHtml(metaList, sourceUrl, parse, unescape).pageTitle == Some("")
  {
    FromHtmlLastWins(metaList, sourceUrl, Title, parse, unescape);
  }

  /** A page none of whose `og:image` pairs has "http" in its content has no
      image URL, whatever its other pairs say. */
  lemma NoHttpNoImage(metaList: seq<Metadata>, sourceUrl: string, parse: string -> Option<URL>, unescape: string -> Option<string>)
    requires forall i :: 0 <= i < |metaList| && Contains(metaList[i].property, "og:image") ==> !Contains(metaList[i].content, "http")
    ensures FromHtml(metaList, sourceUrl, parse, unescape).imageUrl == None
  {
    FromHtmlLastWins(metaList, sourceUrl, Image, parse, unescape);
  }

  /** Duplicate `og:title` pairs: the last one gives the title. */
  lemma DuplicateTitleLastWins(first: string, last: string, sourceUrl: string, parse: string -> Option<URL>, unescape: string -> Option<string>)
    ensures var d := FromHtml([Metadata("og:title", first), Metadata("og:title", last)], sourceUrl, parse, unescape);
      d == Start(sourceUrl, parse).(pageTitle := Some(unescape(last).GetOr("")))
  {
    var m0, m1 := Metadata("og:title", first), Metadata("og:title", last);
    TitleClassified(first);
    TitleClassified(last);
    var s0 := Step(Start(sourceUrl, parse), m0, parse, unescape);
    var s1 := Step(s0, m1, parse, unescape);
    assert [m0, m1][1..] == [m1];
    assert [m1][1..] == [];
    assert Reduce(s1, [], parse, unescape) == s1;
    assert Reduce(s0, [m1], parse, unescape) == s1;
    assert s1 == Start(sourceUrl, parse).(pageTitle := Some(unescape(last).GetOr("")));
  }

  /** A pair whose property is exactly "og:title" is a title. */
  lemma TitleClassified(content: string)
    ensures Classify(Metadata("og:title", content)) == Some(Title)
  {
    assert !Contains("og:title", "og:description");
    assert !Contains("og:title", "og:site_name");
    assert "og:title"[..8][3] != "og:image"[3];
    assert !Contains("og:title"[1..], "og:image");
    assert StartsWith("og:title", "og:title");
  }
}
