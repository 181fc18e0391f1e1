/** The cloud extension of a mind-map node: the handler that builds a cloud
    from a `<cloud STYLE=".." COLOR=".." WIDTH=".."/>` element while a map is
    read, attaches it to its node at the end of the element, and writes a
    cloud back as such an element. */
module CloudBuilder {
  import opened Wrappers
  import JavaInt

  const CLOUD_TAG := "cloud"
  const STYLE := "STYLE"
  const COLOR := "COLOR"
  const WIDTH := "WIDTH"

  /** A cloud model: a style name and a colour, each possibly null, and an
      `int` line width. `C` is the colour type, left abstract. */
  datatype Cloud<C> = Cloud(style: Option<string>, color: Option<C>, width: JavaInt.Int32)

  /** The colour conversions of the XML reader and writer. Reading may give
      no colour (a null result). */
  datatype ColorCodec<!C(!new)> = ColorCodec(toXml: C -> string, fromXml: string -> Option<C>) {
    /** Reading back a written colour yields that colour. */
    ghost predicate IsInversePair() {
      forall c: C :: fromXml(toXml(c)) == Some(c)
    }
  }

  /** What the builder depends on outside itself: the colour conversions and
      the default cloud width. */
  datatype Settings<!C(!new)> = Settings(codec: ColorCodec<C>, defaultWidth: JavaInt.Int32)

  /** A freshly constructed cloud model: no style, no colour, default width. */
  function NewCloud<C(!new)>(settings: Settings<C>): Cloud<C> {
    Cloud(None, None, settings.defaultWidth)
  }

  /** An XML element with its attributes in document order. */
  datatype Attribute = Attribute(name: string, value: string)
  datatype Element = Element(name: string, attributes: seq<Attribute>)

  /** An XML element never carries the same attribute name twice. */
  predicate DistinctNames(attrs: seq<Attribute>) {
    forall i, j :: 0 <= i < j < |attrs| ==> attrs[i].name != attrs[j].name
  }

  /** The value of the named attribute, if present. */
  function Lookup(attrs: seq<Attribute>, name: string): (r: Option<string>)
    ensures r.Some? <==> exists i :: 0 <= i < |attrs| && attrs[i].name == name
    ensures r.Some? ==> exists i :: 0 <= i < |attrs| && attrs[i] == Attribute(name, r.value)
  {
    if |attrs| == 0 then None
    else if attrs[0].name == name then Some(attrs[0].value)
    else
      var r := Lookup(attrs[1..], name);
      assert forall i :: 0 <= i < |attrs[1..]| ==> attrs[1..][i] == attrs[i + 1];
      r
  }

  /** The objects the tree reader passes around as parents and user objects. */
  datatype NodeModel<C> = NodeModel(id: string, cloud: Option<Cloud<C>>)
  datatype Object<C> = NodeObject(node: NodeModel<C>) | CloudObject(cloud: Cloud<C>) | OtherObject(kind: string)

  // ---------------------------------------------------------------------
  // Reading

  /** `createElement`: a fresh cloud for the `cloud` tag, null otherwise. */
  function CreateElement<C(!new)>(settings: Settings<C>, tag: string): (r: Option<Cloud<C>>)
    ensures r.Some? <==> tag == CLOUD_TAG
    ensures r.Some? ==> r.value.style.None? && r.value.color.None? && r.value.width == settings.defaultWidth
  {
    if tag == CLOUD_TAG then Some(NewCloud(settings)) else None
  }

  /** `endElement`: a finished cloud is stored on its parent when the parent
      is a node; in every other case the parent is left as it was. */
  function EndElement<C>(parent: Object<C>, tag: string, userObject: Object<C>): (r: Object<C>)
    ensures parent.NodeObject? && userObject.CloudObject? ==>
              r.NodeObject? && r.node.id == parent.node.id && r.node.cloud == Some(userObject.cloud)
    ensures !(parent.NodeObject? && userObject.CloudObject?) ==> r == parent
  {
    match parent
    case NodeObject(node) =>
      if userObject.CloudObject? then NodeObject(node.(cloud := Some(userObject.cloud))) else parent
    case _ => parent
  }

  /** The three attribute setters, and the identities of the handler objects
      registered by other features. */
  datatype Handler = CloudElementHandler | StyleSetter | ColorSetter | WidthSetter | OtherHandler(id: nat)

  predicate IsCloudSetter(h: Handler) {
    h.StyleSetter? || h.ColorSetter? || h.WidthSetter?
  }

  /** The setter the cloud builder installs for an attribute of a `cloud` element. */
  function SetterFor(name: string): (h: Option<Handler>)
    ensures h.Some? ==> IsCloudSetter(h.value)
  {
    if name == STYLE then Some(StyleSetter)
    else if name == COLOR then Some(ColorSetter)
    else if name == WIDTH then Some(WidthSetter)
    else None
  }

  /** Running one setter on a cloud. STYLE stores the raw string, COLOR the
      converted colour, WIDTH the parsed decimal `int`; an unparsable width
      throws. */
  function SetAttribute<C(!new)>(settings: Settings<C>, h: Handler, cloud: Cloud<C>, value: string)
    : (r: Result<Cloud<C>, JavaInt.NumberFormatException>)
    requires IsCloudSetter(h)
    ensures h.StyleSetter? ==> r == Success(cloud.(style := Some(value)))
    ensures h.ColorSetter? ==> r == Success(cloud.(color := settings.codec.fromXml(value)))
    ensures h.WidthSetter? ==> (r.Success? <==> JavaInt.ParseInt(value).Success?)
    ensures h.WidthSetter? && r.Success? ==> r.value == cloud.(width := JavaInt.ParseInt(value).value)
    ensures h.WidthSetter? && r.Failure? ==> r.error == JavaInt.NumberFormatException(value)
  {
    match h
    case StyleSetter => Success(cloud.(style := Some(value)))
    case ColorSetter => Success(cloud.(color := settings.codec.fromXml(value)))
    case WidthSetter =>
      match JavaInt.ParseInt(value)
      case Success(w) => Success(cloud.(width := w))
      case Failure(e) => Failure(e)
  }

  /** One attribute of a `cloud` element reaches its setter; an attribute no
      setter is registered for is ignored. */
  function ApplyAttribute<C(!new)>(settings: Settings<C>, cloud: Cloud<C>, a: Attribute)
    : Result<Cloud<C>, JavaInt.NumberFormatException>
  {
    match SetterFor(a.name)
    case None => Success(cloud)
    case Some(h) => SetAttribute(settings, h, cloud, a.value)
  }

  /** All attributes in document order; the first exception aborts. */
  function ApplyAttributes<C(!new)>(settings: Settings<C>, cloud: Cloud<C>, attrs: seq<Attribute>)
    : Result<Cloud<C>, JavaInt.NumberFormatException>
    decreases |attrs|
  {
    if |attrs| == 0 then Success(cloud)
    else
      match ApplyAttribute(settings, cloud, attrs[0])
      case Failure(e) => Failure(e)
      case Success(c) => ApplyAttributes(settings, c, attrs[1..])
  }

  /** Reading one element through the cloud handler: `createElement`, then
      every attribute's setter. A non-cloud element yields no object. */
  function ReadElement<C(!new)>(settings: Settings<C>, e: Element): Result<Option<Cloud<C>>, JavaInt.NumberFormatException>
  {
    match CreateElement(settings, e.name)
    case None => Success(None)
    case Some(created) =>
      match ApplyAttributes(settings, created, e.attributes)
      case Failure(err) => Failure(err)
      case Success(c) => Success(Some(c))
  }

  /** Reference reading, field by field: each present attribute overrides the
      corresponding field of `base`, and only an unparsable WIDTH fails (the
      colour conversion is taken not to throw). */
  function FieldwiseRead<C(!new)>(settings: Settings<C>, base: Cloud<C>, attrs: seq<Attribute>)
    : Result<Cloud<C>, JavaInt.NumberFormatException>
  {
    var style := match Lookup(attrs, STYLE) case Some(v) => Some(v) case None => base.style;
    var color := match Lookup(attrs, COLOR) case Some(v) => settings.codec.fromXml(v) case None => base.color;
    match Lookup(attrs, WIDTH)
    case None => Success(Cloud(style, color, base.width))
    case Some(v) =>
      match JavaInt.ParseInt(v)
      case Failure(e) => Failure(e)
      case Success(w) => Success(Cloud(style, color, w))
  }

  /** Applying the setters one attribute at a time agrees with the field-wise
      reading: since attribute names are distinct and each setter touches its
      own field, the document order of the attributes does not matter. */
  lemma {:induction false} ApplyAttributesIsFieldwise<C(!new)>(settings: Settings<C>, base: Cloud<C>, attrs: seq<Attribute>)
    requires DistinctNames(attrs)
    ensures ApplyAttributes(settings, base, attrs) == FieldwiseRead(settings, base, attrs)
    decreases |attrs|
  {
    if |attrs| > 0 {
      var a, rest := attrs[0], attrs[1..];
      assert forall i :: 0 <= i < |rest| ==> rest[i] == attrs[i + 1];
      assert DistinctNames(rest);
      assert forall i :: 0 <= i < |rest| ==> rest[i].name != a.name;
      forall n | n != a.name
        ensures Lookup(attrs, n) == Lookup(rest, n)
      {
      }
      assert Lookup(attrs, a.name) == Some(a.value);
      assert Lookup(rest, a.name).None?;
      match ApplyAttribute(settings, base, a)
      case Failure(e) =>
      case Success(c) =>
        ApplyAttributesIsFieldwise(settings, c, rest);
    }
  }

  // ---------------------------------------------------------------------
  // Writing

  /** `writeContent`: a `cloud` element with STYLE when the style is set,
      COLOR when the colour is set, and WIDTH only when the width differs
      from the default. */
  function Write<C(!new)>(settings: Settings<C>, cloud: Cloud<C>): (e: Element)
    ensures e.name == CLOUD_TAG
    ensures DistinctNames(e.attributes)
    ensures forall i :: 0 <= i < |e.attributes| ==> e.attributes[i].name in {STYLE, COLOR, WIDTH}
    ensures Lookup(e.attributes, STYLE) == cloud.style
    ensures Lookup(e.attributes, COLOR).Some? <==> cloud.color.Some?
    ensures cloud.color.Some? ==> Lookup(e.attributes, COLOR) == Some(settings.codec.toXml(cloud.color.value))
    ensures Lookup(e.attributes, WIDTH).Some? <==> cloud.width != settings.defaultWidth
    ensures cloud.width != settings.defaultWidth ==> Lookup(e.attributes, WIDTH) == Some(JavaInt.ToString(cloud.width))
  {
    var styleAttr := if cloud.style.Some? then [Attribute(STYLE, cloud.style.value)] else [];
    var colorAttr := if cloud.color.Some? then [Attribute(COLOR, settings.codec.toXml(cloud.color.value))] else [];
    var widthAttr := if cloud.width != settings.defaultWidth then [Attribute(WIDTH, JavaInt.ToString(cloud.width))] else [];
    var attrs := styleAttr + colorAttr + widthAttr;
    assert forall i :: 0 <= i < |attrs| - |widthAttr| ==> attrs[i].name != WIDTH;
    assert widthAttr != [] ==> attrs[|attrs| - 1] == widthAttr[0];
    Element(CLOUD_TAG, attrs)
  }

  /** Reading a written cloud gives back the same cloud, provided the colour
      conversions are inverse. */
  lemma ReadWrite<C(!new)>(settings: Settings<C>, cloud: Cloud<C>)
    requires settings.codec.IsInversePair()
    ensures ReadElement(settings, Write(settings, cloud)) == Success(Some(cloud))
  {
    var e := Write(settings, cloud);
    ApplyAttributesIsFieldwise(settings, NewCloud(settings), e.attributes);
    if cloud.width != settings.defaultWidth {
      JavaInt.ParseIntOfToString(cloud.width);
    }
  }

  /** The whole extension path of a load: the written element, read back and
      closed under a node, leaves that node carrying the same cloud. */
  lemma LoadWrittenCloud<C(!new)>(settings: Settings<C>, node: NodeModel<C>, cloud: Cloud<C>)
    requires settings.codec.IsInversePair()
    ensures var e := Write(settings, cloud);
            ReadElement(settings, e).Success? && ReadElement(settings, e).value.Some? &&
            EndElement(NodeObject(node), e.name, CloudObject(ReadElement(settings, e).value.value))
              == NodeObject(node.(cloud := Some(cloud)))
  {
    ReadWrite(settings, cloud);
  }

  /** A cloud of default width is written without WIDTH and read back with
      the default width. */
  lemma DefaultWidthOmitted<C(!new)>(settings: Settings<C>, cloud: Cloud<C>)
    requires cloud.width == settings.defaultWidth
    ensures Lookup(Write(settings, cloud).attributes, WIDTH).None?
    ensures ReadElement(settings, Write(settings, cloud)).Success?
    ensures ReadElement(settings, Write(settings, cloud)).value.value.width == settings.defaultWidth
  {
    var e := Write(settings, cloud);
    ApplyAttributesIsFieldwise(settings, NewCloud(settings), e.attributes);
  }

  /** Corollary of `ReadWrite`: writing normalises, so whatever element was
      read, writing the result and reading again yields the same cloud. */
  lemma ReadWriteRead<C(!new)>(settings: Settings<C>, e: Element)
    requires settings.codec.IsInversePair()
    requires ReadElement(settings, e).Success? && ReadElement(settings, e).value.Some?
    ensures var c := ReadElement(settings, e).value.value;
            ReadElement(settings, Write(settings, c)) == Success(Some(c))
  {
    ReadWrite(settings, ReadElement(settings, e).value.value);
  }

  /** A round cloud of colour `c` and width 6 is written with all three
      attributes, in STYLE, COLOR, WIDTH order. */
  lemma WriteRoundCloud<C(!new)>(settings: Settings<C>, c: C)
    requires settings.defaultWidth != 6
    ensures Write(settings, Cloud(Some("ROUND"), Some(c), 6)).attributes
              == [Attribute(STYLE, "ROUND"), Attribute(COLOR, settings.codec.toXml(c)), Attribute(WIDTH, "6")]
  {
  }

  /** A malformed width is an error, not a silently kept default. */
  lemma MalformedWidthFails<C(!new)>(settings: Settings<C>, e: Element, v: string)
    requires e.name == CLOUD_TAG && DistinctNames(e.attributes)
    requires Lookup(e.attributes, WIDTH) == Some(v) && JavaInt.ParseInt(v).Failure?
    ensures ReadElement(settings, e) == Failure(JavaInt.NumberFormatException(v))
  {
    ApplyAttributesIsFieldwise(settings, NewCloud(settings), e.attributes);
  }

  // ---------------------------------------------------------------------
  // Registration

  /** The classes extension writers are registered for. */
  datatype ExtensionClass = CloudModelClass | OtherClass(name: string)

  /** The read manager's tables: element handlers by tag, attribute handlers
      by (tag, attribute name). */
  datatype ReadManager = ReadManager(elementHandlers: set<(string, Handler)>, attributeHandlers: set<(string, string, Handler)>)

  /** The write manager's table of extension element writers by class. */
  datatype WriteManager = WriteManager(extensionWriters: set<(ExtensionClass, Handler)>)

  /** The names that have a handler under `tag`. */
  function AttributeNames(rm: ReadManager, tag: string): set<string> {
    set b | b in rm.attributeHandlers && b.0 == tag :: b.1
  }

  /** `registerBy`: binds the `cloud` tag to this builder, installs the three
      setters under `cloud`, and registers this builder as the writer of
      cloud models. No other binding is added or removed. */
  function RegisterBy(rm: ReadManager, wm: WriteManager): (r: (ReadManager, WriteManager))
    ensures rm.elementHandlers <= r.0.elementHandlers && rm.attributeHandlers <= r.0.attributeHandlers
    ensures wm.extensionWriters <= r.1.extensionWriters
    ensures r.0.elementHandlers - rm.elementHandlers <= {(CLOUD_TAG, CloudElementHandler)}
    ensures (CLOUD_TAG, CloudElementHandler) in r.0.elementHandlers
    ensures AttributeNames(r.0, CLOUD_TAG) == AttributeNames(rm, CLOUD_TAG) + {STYLE, COLOR, WIDTH}
    ensures forall t :: t != CLOUD_TAG ==> AttributeNames(r.0, t) == AttributeNames(rm, t)
    ensures r.0.attributeHandlers - rm.attributeHandlers
              <= {(CLOUD_TAG, STYLE, StyleSetter), (CLOUD_TAG, COLOR, ColorSetter), (CLOUD_TAG, WIDTH, WidthSetter)}
    ensures forall n :: SetterFor(n).Some? ==> (CLOUD_TAG, n, SetterFor(n).value) in r.0.attributeHandlers
    ensures r.1.extensionWriters - wm.extensionWriters <= {(CloudModelClass, CloudElementHandler)}
    ensures (CloudModelClass, CloudElementHandler) in r.1.extensionWriters
  {
    var rm' := ReadManager(
      rm.elementHandlers + {(CLOUD_TAG, CloudElementHandler)},
      rm.attributeHandlers + {(CLOUD_TAG, STYLE, StyleSetter), (CLOUD_TAG, COLOR, ColorSetter), (CLOUD_TAG, WIDTH, WidthSetter)});
    var wm' := WriteManager(wm.extensionWriters + {(CloudModelClass, CloudElementHandler)});
    assert (CLOUD_TAG, STYLE, StyleSetter) in rm'.attributeHandlers;
    assert (CLOUD_TAG, COLOR, ColorSetter) in rm'.attributeHandlers;
    assert (CLOUD_TAG, WIDTH, WidthSetter) in rm'.attributeHandlers;
    (rm', wm')
  }

  /** Registration adds, for each `cloud` attribute, exactly the setter the
      reader dispatches that attribute to, whatever the managers already held
      (the node builder registers first). Into managers holding no other
      `cloud` attribute handler, the registered handlers and the dispatch
      coincide. */
  lemma RegisteredSettersAreDispatched(rm: ReadManager, wm: WriteManager, name: string, h: Handler)
    ensures var rm' := RegisterBy(rm, wm).0;
            var added := SetterFor(name) == Some(h);
            ((CLOUD_TAG, name, h) in rm'.attributeHandlers <==> added || (CLOUD_TAG, name, h) in rm.attributeHandlers)
    ensures AttributeNames(rm, CLOUD_TAG) == {} ==>
              ((CLOUD_TAG, name, h) in RegisterBy(rm, wm).0.attributeHandlers <==> SetterFor(name) == Some(h))
  {
    assert (CLOUD_TAG, name, h) in rm.attributeHandlers ==> name in AttributeNames(rm, CLOUD_TAG);
  }
}
