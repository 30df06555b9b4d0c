/** The editor's artifact node (packages/tiles-playground/nodes/ArtifactNode.ts):
    a block that carries a content type, the content and optional title
    and description, serialised to JSON and to `data-artifact-*`
    attributes of a `div`. Node keys are assigned by the editor and are
    parameters here. */
module ArtifactNodes {
  import opened Common

  /** The three content types the node declares. */
  predicate DeclaredContentType(t: string)
  {
    t == "application/vnd.ant.html" || t == "text/markdown" || t == "application/vnd.ant.mermaid"
  }

  datatype Metadata = Metadata(title: Option<string>, description: Option<string>)

  /** What a node holds, as a value. */
  datatype ArtifactData = ArtifactData(contentType: string, content: string, metadata: Option<Metadata>)

  /** `SerializedArtifactNode`. */
  datatype Serialized = Serialized(
    contentType: string, content: string, metadata: Option<Metadata>, nodeType: string, version: int)

  /** What `importJSON` takes from a serialised node. */
  function Imported(s: Serialized): ArtifactData
  {
    ArtifactData(s.contentType, s.content, s.metadata)
  }

  function Title(d: ArtifactData): Option<string>
  {
    if d.metadata.Some? then d.metadata.value.title else None
  }

  function Description(d: ArtifactData): Option<string>
  {
    if d.metadata.Some? then d.metadata.value.description else None
  }

  const ContentTypeAttr := "data-artifact-content-type"
  const ContentAttr := "data-artifact-content"
  const TitleAttr := "data-artifact-title"
  const DescriptionAttr := "data-artifact-description"

  /** The attributes `createDOM` and `exportDOM` write: title and
      description only when non-empty. */
  function DomAttributes(d: ArtifactData): (attrs: map<string, string>)
    ensures attrs.Keys <= {ContentTypeAttr, ContentAttr, TitleAttr, DescriptionAttr}
    ensures ContentTypeAttr in attrs && attrs[ContentTypeAttr] == d.contentType
    ensures ContentAttr in attrs && attrs[ContentAttr] == d.content
    ensures TitleAttr in attrs <==> Present(Title(d))
    ensures TitleAttr in attrs ==> attrs[TitleAttr] == Title(d).value
    ensures DescriptionAttr in attrs <==> Present(Description(d))
    ensures DescriptionAttr in attrs ==> attrs[DescriptionAttr] == Description(d).value
  {
    map[ContentTypeAttr := d.contentType, ContentAttr := d.content]
    + (if Present(Title(d)) then map[TitleAttr := Title(d).value] else map[])
    + (if Present(Description(d)) then map[DescriptionAttr := Description(d).value] else map[])
  }

  /** `getAttribute`: the value, or null when the attribute is absent. */
  function Attribute(attrs: map<string, string>, name: string): Option<string>
  {
    if name in attrs then Some(attrs[name]) else None
  }

  /** `x || undefined` on an attribute value. */
  function NonEmpty(o: Option<string>): (r: Option<string>)
    ensures r.Some? <==> Present(o)
    ensures r.Some? ==> r == o
  {
    if Present(o) then o else None
  }

  /** `convertArtifactElement`: a node only when both the content type and
      the content are non-empty; metadata only when the title or the
      description is, and an empty one stays undefined. The content type
      is not checked against the declared three. */
  function ConvertArtifactElement(attrs: map<string, string>): (r: Option<ArtifactData>)
    ensures r.Some? <==> Present(Attribute(attrs, ContentTypeAttr)) && Present(Attribute(attrs, ContentAttr))
    ensures r.Some? ==> r.value.contentType == attrs[ContentTypeAttr] && r.value.content == attrs[ContentAttr]
    ensures r.Some? ==> (r.value.metadata.None? <==>
      !Present(Attribute(attrs, TitleAttr)) && !Present(Attribute(attrs, DescriptionAttr)))
    ensures r.Some? && r.value.metadata.Some? ==>
      r.value.metadata.value == Metadata(NonEmpty(Attribute(attrs, TitleAttr)), NonEmpty(Attribute(attrs, DescriptionAttr)))
  {
    var contentType := Attribute(attrs, ContentTypeAttr);
    var content := Attribute(attrs, ContentAttr);
    var title := Attribute(attrs, TitleAttr);
    var description := Attribute(attrs, DescriptionAttr);
    if Present(contentType) && Present(content) then
      var metadata :=
        if Present(title) || Present(description) then Some(Metadata(NonEmpty(title), NonEmpty(description)))
        else None;
      Some(ArtifactData(contentType.value, content.value, metadata))
    else None
  }

  /** What survives a trip through the DOM: empty title and description
      are dropped, and metadata with neither becomes undefined. */
  function DomVisible(d: ArtifactData): ArtifactData
  {
    var title := NonEmpty(Title(d));
    var description := NonEmpty(Description(d));
    d.(metadata := if title.Some? || description.Some? then Some(Metadata(title, description)) else None)
  }

  /** Exporting to the DOM and importing back keeps the content type, the
      content and non-empty metadata, whenever both of the first two are
      non-empty; otherwise nothing is imported. */
  lemma DomRoundTrip(d: ArtifactData)
    ensures d.contentType != "" && d.content != "" ==> ConvertArtifactElement(DomAttributes(d)) == Some(DomVisible(d))
    ensures d.contentType == "" || d.content == "" ==> ConvertArtifactElement(DomAttributes(d)).None?
  {
    var attrs := DomAttributes(d);
    assert Attribute(attrs, TitleAttr) == NonEmpty(Title(d));
    assert Attribute(attrs, DescriptionAttr) == NonEmpty(Description(d));
  }

  /** Data already in DOM-visible form round-trips exactly. */
  lemma DomVisibleIsStable(d: ArtifactData)
    requires d.contentType != "" && d.content != ""
    ensures ConvertArtifactElement(DomAttributes(DomVisible(d))) == Some(DomVisible(d))
  {
    DomRoundTrip(DomVisible(d));
  }

  /** Any non-empty content type is imported from the DOM, declared or not. */
  lemma ContentTypeUnchecked(contentType: string, content: string)
    requires contentType != "" && content != ""
    ensures ConvertArtifactElement(map[ContentTypeAttr := contentType, ContentAttr := content])
      == Some(ArtifactData(contentType, content, None))
  {
    var attrs := map[ContentTypeAttr := contentType, ContentAttr := content];
    assert Attribute(attrs, TitleAttr).None? && Attribute(attrs, DescriptionAttr).None?;
  }

  lemma UndeclaredTypeImported()
    ensures !DeclaredContentType("text/plain")
    ensures ConvertArtifactElement(map[ContentTypeAttr := "text/plain", ContentAttr := "x"]).Some?
  {
    ContentTypeUnchecked("text/plain", "x");
  }

  /** A DOM element being built: its tag, its `style.display` and its
      attributes, set one at a time. */
  class Element {
    const tag: string
    var display: Option<string>
    var attributes: map<string, string>

    constructor (tag: string)
      ensures this.tag == tag && display.None? && attributes == map[]
    {
      this.tag := tag;
      display := None;
      attributes := map[];
    }

    method SetAttribute(name: string, value: string)
      modifies this
      ensures attributes == old(attributes)[name := value]
      ensures display == old(display)
    {
      attributes := attributes[name := value];
    }
  }

  /** The node; lexical's fields `__contentType`, `__content`,
      `__metadata` and the key are assigned once, in the constructor. */
  class ArtifactNode {
    const contentType: string
    const content: string
    const metadata: Option<Metadata>
    const key: string

    constructor (contentType: string, content: string, metadata: Option<Metadata>, key: string)
      ensures Data() == ArtifactData(contentType, content, metadata) && this.key == key
    {
      this.contentType := contentType;
      this.content := content;
      this.metadata := metadata;
      this.key := key;
    }

    function Data(): ArtifactData
    {
      ArtifactData(contentType, content, metadata)
    }

    /** `exportJSON`: type 'artifact', version 1, and what `importJSON`
        reads back is this node's data. */
    function ExportJSON(): (s: Serialized)
      ensures s.nodeType == "artifact" && s.version == 1
      ensures Imported(s) == Data()
    {
      Serialized(contentType, content, metadata, "artifact", 1)
    }

    /** `clone`: a new node with the same data and the same key. */
    static method Clone(node: ArtifactNode) returns (n: ArtifactNode)
      ensures fresh(n)
      ensures n.Data() == node.Data() && n.key == node.key
    {
      n := new ArtifactNode(node.contentType, node.content, node.metadata, node.key);
    }

    /** `importJSON`: a new node (under a key the editor assigns). */
    static method ImportJSON(s: Serialized, newKey: string) returns (n: ArtifactNode)
      ensures fresh(n)
      ensures n.Data() == Imported(s) && n.key == newKey
    {
      n := CreateArtifactNode(s.contentType, s.content, s.metadata, newKey);
    }

    /** `createDOM`: a `div` displayed as `contents` carrying the data attributes. */
    method CreateDOM() returns (div: Element)
      ensures fresh(div)
      ensures div.tag == "div" && div.display == Some("contents")
      ensures div.attributes == DomAttributes(Data())
    {
      div := new Element("div");
      div.display := Some("contents");
      WriteAttributes(div);
    }

    /** `exportDOM`: a plain `div` with the same attributes. */
    method ExportDOM() returns (element: Element)
      ensures fresh(element)
      ensures element.tag == "div" && element.display.None?
      ensures element.attributes == DomAttributes(Data())
    {
      element := new Element("div");
      WriteAttributes(element);
    }

    /** The `setAttribute` calls `createDOM` and `exportDOM` share. */
    method WriteAttributes(e: Element)
      requires e.attributes == map[]
      modifies e
      ensures e.attributes == DomAttributes(Data()) && e.display == old(e.display)
    {
      e.SetAttribute(ContentTypeAttr, contentType);
      e.SetAttribute(ContentAttr, content);
      if metadata.Some? && Present(metadata.value.title) {
        e.SetAttribute(TitleAttr, metadata.value.title.value);
      }
      if metadata.Some? && Present(metadata.value.description) {
        e.SetAttribute(DescriptionAttr, metadata.value.description.value);
      }
    }

    /** `getTextContent`: `[Artifact: <title>]`, or the content type when
        there is no non-empty title. */
    function GetTextContent(): (r: string)
      ensures StartsWith(r, "[Artifact: ") && EndsWith(r, "]") && |r| >= 12
      ensures r[11..|r| - 1] == if Present(Title(Data())) then Title(Data()).value else contentType
    {
      var name := if metadata.Some? && Present(metadata.value.title) then metadata.value.title.value else contentType;
      var r := "[Artifact: " + name + "]";
      assert r[11..|r| - 1] == name;
      r
    }
  }

  /** `$createArtifactNode`. */
  method CreateArtifactNode(contentType: string, content: string, metadata: Option<Metadata>, newKey: string)
    returns (n: ArtifactNode)
    ensures fresh(n)
    ensures n.Data() == ArtifactData(contentType, content, metadata) && n.key == newKey
  {
    n := new ArtifactNode(contentType, content, metadata, newKey);
  }

  /** `convertArtifactElement` with the node it creates. */
  method ConvertElement(e: Element, newKey: string) returns (node: Option<ArtifactNode>)
    ensures node.None? <==> ConvertArtifactElement(e.attributes).None?
    ensures node.Some? ==> fresh(node.value) && node.value.Data() == ConvertArtifactElement(e.attributes).value
  {
    var converted := ConvertArtifactElement(e.attributes);
    if converted.None? {
      return None;
    }
    var n := CreateArtifactNode(converted.value.contentType, converted.value.content, converted.value.metadata, newKey);
    return Some(n);
  }
}
