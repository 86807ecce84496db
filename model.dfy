/**
 * The scene-element tree: ProjectElement and the small records it holds.
 *
 * An element is a mutable object whose fields are all nullable (`Option`),
 * so that an absent flag is a state distinct from `false`. The parser later
 * stores each element's world transform in it, which makes the tree a heap
 * structure: `Element` below is a class, and `Tree` is the value an element
 * and everything below it denote at a given moment.
 */
module Model {
  import opened Wrappers
  import opened Matrix

  /** Per-axis rotation angles, in radians; primitive doubles, so never null. */
  datatype Rotation = Rotation(x: real, y: real, z: real)

  /** The optional structured transform of an element; each part may be null. */
  datatype DefaultTransform = DefaultTransform(
    position: Option<seq<real>>,
    rotation: Option<Rotation>,
    scale: Option<seq<real>>)

  /** Pass-through payloads: decoded, stored and never interpreted. */
  datatype TagHead = TagHead(value: Option<string>)
  datatype Brightness = Brightness(sky: int, block: int)
  datatype TextOptions = TextOptions(
    color: Option<string>, alpha: real,
    backgroundColor: Option<string>, backgroundAlpha: real,
    bold: bool, italic: bool, underline: bool, strikeThrough: bool,
    lineLength: int, align: Option<string>, obfuscated: bool)
  /** An untyped JSON value (the element's `paintTexture`), kept as its text. */
  datatype Json = Json(text: string)

  /** Every field of an element except its transforms, children and world transform. */
  datatype Attributes = Attributes(
    isCollection: Option<bool>,
    name: Option<string>,
    nbt: Option<string>,
    isBackCollection: Option<bool>,
    defaultTransform: Option<DefaultTransform>,
    isItemDisplay: Option<bool>,
    tagHead: Option<TagHead>,
    textureValueList: Option<seq<string>>,
    paintTexture: Option<Json>,
    defaultTextureValue: Option<string>,
    isBlockDisplay: Option<bool>,
    isTextDisplay: Option<bool>,
    options: Option<TextOptions>,
    brightness: Option<Brightness>)

  /**
   * The value of an element and its subtree. A null entry of the children
   * list is a `None` element.
   */
  datatype Tree = Tree(
    attributes: Attributes,
    transforms: Option<seq<real>>,
    children: ChildList,
    worldTransform: Option<Matrix4f>)

  /** An element's `children` list, which may itself be null. */
  datatype ChildList = NullChildren | Children(entries: seq<Option<Tree>>)

  class Element {
    var isCollection: Option<bool>
    var name: Option<string>
    var nbt: Option<string>
    var transforms: Option<seq<real>>
    var children: Option<seq<Element?>>
    var isBackCollection: Option<bool>
    var defaultTransform: Option<DefaultTransform>
    var isItemDisplay: Option<bool>
    var tagHead: Option<TagHead>
    var textureValueList: Option<seq<string>>
    var paintTexture: Option<Json>
    var defaultTextureValue: Option<string>
    var isBlockDisplay: Option<bool>
    var isTextDisplay: Option<bool>
    var options: Option<TextOptions>
    var brightness: Option<Brightness>
    /** Written only by the world-transform calculator. */
    var worldTransform: Option<Matrix4f>

    /** This element and every element below it. */
    ghost var Repr: set<Element>

    /** A fresh element with every field null, as the JSON decoder instantiates it. */
    constructor ()
      ensures Attrs() == Attributes(None, None, None, None, None, None, None, None, None, None, None, None, None, None)
      ensures transforms == None && children == None && worldTransform == None
      ensures Repr == {this} && Valid()
    {
      isCollection, name, nbt, transforms, children := None, None, None, None, None;
      isBackCollection, defaultTransform, isItemDisplay, tagHead := None, None, None, None;
      textureValueList, paintTexture, defaultTextureValue := None, None, None;
      isBlockDisplay, isTextDisplay, options, brightness := None, None, None, None;
      worldTransform := None;
      Repr := {this};
    }

    /**
     * The element the JSON decoder makes: it instantiates an element and
     * fills every field present in the text, children excepted here (they
     * are attached afterwards). The text has no world transform to fill.
     */
    constructor Decoded(a: Attributes, transforms: Option<seq<real>>)
      ensures Attrs() == a && this.transforms == transforms && worldTransform == None
      ensures children == None && Repr == {this} && Valid()
      ensures Model() == Tree(a, transforms, NullChildren, None)
    {
      isCollection, name, nbt, isBackCollection := a.isCollection, a.name, a.nbt, a.isBackCollection;
      defaultTransform, isItemDisplay, tagHead := a.defaultTransform, a.isItemDisplay, a.tagHead;
      textureValueList, paintTexture, defaultTextureValue := a.textureValueList, a.paintTexture, a.defaultTextureValue;
      isBlockDisplay, isTextDisplay, options, brightness := a.isBlockDisplay, a.isTextDisplay, a.options, a.brightness;
      this.transforms, worldTransform, children := transforms, None, None;
      Repr := {this};
    }

    /**
     * The element the JSON decoder makes for an object that has a children
     * array, once the children have been decoded: it owns exactly them.
     */
    constructor DecodedWithChildren(a: Attributes, transforms: Option<seq<real>>, cs: seq<Element?>, ghost r: set<Element>)
      requires ForestValid(cs, r) && r == Footprint(cs)
      ensures Attrs() == a && this.transforms == transforms && worldTransform == None
      ensures children == Some(cs) && Repr == {this} + r && Valid()
      ensures Model() == Tree(a, transforms, Children(ForestModel(cs, r)), None)
    {
      isCollection, name, nbt, isBackCollection := a.isCollection, a.name, a.nbt, a.isBackCollection;
      defaultTransform, isItemDisplay, tagHead := a.defaultTransform, a.isItemDisplay, a.tagHead;
      textureValueList, paintTexture, defaultTextureValue := a.textureValueList, a.paintTexture, a.defaultTextureValue;
      isBlockDisplay, isTextDisplay, options, brightness := a.isBlockDisplay, a.isTextDisplay, a.options, a.brightness;
      this.transforms, worldTransform, children := transforms, None, Some(cs);
      Repr := {this} + r;
      new;
      assert Repr - {this} == r;
    }

    /**
     * The element owns a strict tree: every child is below it, no element
     * lies below two siblings, no element lies below itself, and Repr holds
     * exactly this element and the elements reachable from its children.
     */
    ghost predicate Valid()
      reads this, Repr
      decreases Repr, 0
    {
      this in Repr &&
      (children.None? ==> Repr == {this}) &&
      (children.Some? ==> ForestValid(children.value, Repr - {this}) &&
                          Repr == {this} + Footprint(children.value))
    }

    function Attrs(): Attributes
      reads this
    {
      Attributes(isCollection, name, nbt, isBackCollection, defaultTransform, isItemDisplay,
                 tagHead, textureValueList, paintTexture, defaultTextureValue,
                 isBlockDisplay, isTextDisplay, options, brightness)
    }

    /** The value this element and its subtree currently denote. */
    ghost function Model(): Tree
      requires Valid()
      reads this, Repr
      decreases Repr, 0
    {
      Tree(Attrs(), transforms,
           if children.None? then NullChildren else Children(ForestModel(children.value, Repr - {this})),
           worldTransform)
    }

    /** The `childrenCount` that `toString` reports. */
    function ChildrenCount(): (n: nat)
      reads this, Repr
      ensures children.None? ==> n == 0
      ensures children.Some? ==> n == |children.value|
      ensures Valid() ==> n == (if Model().children.NullChildren? then 0 else |Model().children.entries|)
    {
      if children.Some? then |children.value| else 0
    }

    method SetIsCollection(v: Option<bool>)
      modifies this`isCollection
      ensures isCollection == v
      ensures Attrs() == old(Attrs()).(isCollection := v)
    {
      isCollection := v;
    }

    method SetName(v: Option<string>)
      modifies this`name
      ensures name == v
      ensures Attrs() == old(Attrs()).(name := v)
    {
      name := v;
    }

    method SetNbt(v: Option<string>)
      modifies this`nbt
      ensures nbt == v
      ensures Attrs() == old(Attrs()).(nbt := v)
    {
      nbt := v;
    }

    /** Stores any list, or null: the length is not checked here. */
    method SetTransforms(v: Option<seq<real>>)
      modifies this`transforms
      ensures transforms == v
      ensures Attrs() == old(Attrs())
    {
      transforms := v;
    }

    method SetChildren(v: Option<seq<Element?>>)
      modifies this`children
      ensures children == v
      ensures Attrs() == old(Attrs())
    {
      children := v;
    }

    method SetIsBackCollection(v: Option<bool>)
      modifies this`isBackCollection
      ensures isBackCollection == v
      ensures Attrs() == old(Attrs()).(isBackCollection := v)
    {
      isBackCollection := v;
    }

    method SetDefaultTransform(v: Option<DefaultTransform>)
      modifies this`defaultTransform
      ensures defaultTransform == v
      ensures Attrs() == old(Attrs()).(defaultTransform := v)
    {
      defaultTransform := v;
    }

    method SetIsItemDisplay(v: Option<bool>)
      modifies this`isItemDisplay
      ensures isItemDisplay == v
      ensures Attrs() == old(Attrs()).(isItemDisplay := v)
    {
      isItemDisplay := v;
    }

    method SetBrightness(v: Option<Brightness>)
      modifies this`brightness
      ensures brightness == v
      ensures Attrs() == old(Attrs()).(brightness := v)
    {
      brightness := v;
    }

    method SetTagHead(v: Option<TagHead>)
      modifies this`tagHead
      ensures tagHead == v
      ensures Attrs() == old(Attrs()).(tagHead := v)
    {
      tagHead := v;
    }

    method SetTextureValueList(v: Option<seq<string>>)
      modifies this`textureValueList
      ensures textureValueList == v
      ensures Attrs() == old(Attrs()).(textureValueList := v)
    {
      textureValueList := v;
    }

    method SetPaintTexture(v: Option<Json>)
      modifies this`paintTexture
      ensures paintTexture == v
      ensures Attrs() == old(Attrs()).(paintTexture := v)
    {
      paintTexture := v;
    }

    method SetDefaultTextureValue(v: Option<string>)
      modifies this`defaultTextureValue
      ensures defaultTextureValue == v
      ensures Attrs() == old(Attrs()).(defaultTextureValue := v)
    {
      defaultTextureValue := v;
    }

    method SetIsBlockDisplay(v: Option<bool>)
      modifies this`isBlockDisplay
      ensures isBlockDisplay == v
      ensures Attrs() == old(Attrs()).(isBlockDisplay := v)
    {
      isBlockDisplay := v;
    }

    method SetIsTextDisplay(v: Option<bool>)
      modifies this`isTextDisplay
      ensures isTextDisplay == v
      ensures Attrs() == old(Attrs()).(isTextDisplay := v)
    {
      isTextDisplay := v;
    }

    method SetOptions(v: Option<TextOptions>)
      modifies this`options
      ensures options == v
      ensures Attrs() == old(Attrs()).(options := v)
    {
      options := v;
    }

    method SetWorldTransform(v: Option<Matrix4f>)
      modifies this`worldTransform
      ensures worldTransform == v
      ensures Attrs() == old(Attrs())
    {
      worldTransform := v;
    }
  }

  /**
   * The non-null elements of the list own strict trees that lie within repr
   * and share no element with each other.
   */
  ghost predicate ForestValid(cs: seq<Element?>, repr: set<Element>)
    reads repr
    decreases repr, 1
  {
    (forall i :: 0 <= i < |cs| && cs[i] != null ==> cs[i] in repr && cs[i].Repr <= repr && cs[i].Valid()) &&
    (forall i, j :: 0 <= i < j < |cs| && cs[i] != null && cs[j] != null ==> cs[i].Repr !! cs[j].Repr)
  }

  /**
   * What the non-null entries of the list own. For valid entries this is
   * exactly the elements reachable from them, the entries included.
   */
  ghost function Footprint(cs: seq<Element?>): (fp: set<Element>)
    reads set i | 0 <= i < |cs| && cs[i] != null :: cs[i]
    ensures forall i :: 0 <= i < |cs| && cs[i] != null ==> cs[i].Repr <= fp
  {
    if cs == [] then {}
    else
      var last := cs[|cs| - 1];
      Footprint(cs[..|cs| - 1]) + (if last == null then {} else last.Repr)
  }

  /** Appending an element adds what it owns to the footprint; appending null adds nothing. */
  lemma FootprintAppend(cs: seq<Element?>, e: Element?)
    ensures Footprint(cs + [e]) == Footprint(cs) + (if e == null then {} else e.Repr)
  {
    assert (cs + [e])[..|cs|] == cs;
  }

  /** A set holding what every entry owns holds the footprint. */
  lemma {:induction false} FootprintWithin(cs: seq<Element?>, repr: set<Element>)
    requires forall i :: 0 <= i < |cs| && cs[i] != null ==> cs[i].Repr <= repr
    ensures Footprint(cs) <= repr
    decreases |cs|
  {
    if cs != [] {
      FootprintWithin(cs[..|cs| - 1], repr);
    }
  }

  /** The footprint depends on the entries' Repr fields alone. */
  twostate lemma {:induction false} FootprintUnchanged(cs: seq<Element?>)
    requires forall i :: 0 <= i < |cs| && cs[i] != null ==> cs[i].Repr == old(cs[i].Repr)
    ensures Footprint(cs) == old(Footprint(cs))
    decreases |cs|
  {
    if cs != [] {
      FootprintUnchanged(cs[..|cs| - 1]);
    }
  }

  /** The values of a list of possibly-null elements, entry by entry. */
  ghost function ForestModel(cs: seq<Element?>, repr: set<Element>): (ts: seq<Option<Tree>>)
    requires ForestValid(cs, repr)
    reads repr
    decreases repr, 1
    ensures |ts| == |cs|
  {
    seq(|cs|, i requires 0 <= i < |cs| && ForestValid(cs, repr) reads repr =>
      if cs[i] == null then None else Some(cs[i].Model()))
  }
}
