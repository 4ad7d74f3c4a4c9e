/** `DebugDraw`: a batch of debug overlays (texts, lines, boxes, spheres),
    its builder and its encoder to the wire message `Debug.DebugDraw`. */
module Debug {
  import opened Wrappers
  import opened Errors
  import opened Collections

  /** The four drawable primitives; their own classes are not part of this
      model. */
  type DebugText(==, !new)
  type DebugLine(==, !new)
  type DebugBox(==, !new)
  type DebugSphere(==, !new)
  /** Their wire forms. */
  type WireDebugText(==)
  type WireDebugLine(==)
  type WireDebugBox(==)
  type WireDebugSphere(==)

  /** The primitives' own `toSc2Api` conversions. */
  datatype Converters = Converters(
    textToSc2Api: DebugText -> WireDebugText,
    lineToSc2Api: DebugLine -> WireDebugLine,
    boxToSc2Api: DebugBox -> WireDebugBox,
    sphereToSc2Api: DebugSphere -> WireDebugSphere)

  /** The immutable batch: four ordered lists, duplicates allowed. */
  datatype DebugDraw = DebugDraw(
    texts: seq<DebugText>,
    lines: seq<DebugLine>,
    boxes: seq<DebugBox>,
    spheres: seq<DebugSphere>)

  /** The wire message: four repeated fields. */
  datatype WireDebugDraw = WireDebugDraw(
    text: seq<WireDebugText>,
    lines: seq<WireDebugLine>,
    boxes: seq<WireDebugBox>,
    spheres: seq<WireDebugSphere>)

  predicate IsEmpty(d: DebugDraw) {
    d.texts == [] && d.lines == [] && d.boxes == [] && d.spheres == []
  }

  /** `draw()` and its builder. Each adder appends to the end of its own list
      and touches no other list. */
  class Builder {
    var texts: seq<DebugText>
    var lines: seq<DebugLine>
    var boxes: seq<DebugBox>
    var spheres: seq<DebugSphere>

    constructor ()
      ensures texts == [] && lines == [] && boxes == [] && spheres == []
    {
      texts, lines, boxes, spheres := [], [], [], [];
    }

    /** `texts(DebugText...)` */
    method Texts(xs: seq<DebugText>)
      modifies this`texts
      ensures texts == old(texts) + xs
    {
      texts := texts + xs;
    }

    /** `lines(DebugLine...)` */
    method Lines(xs: seq<DebugLine>)
      modifies this`lines
      ensures lines == old(lines) + xs
    {
      lines := lines + xs;
    }

    /** `boxes(DebugBox...)` */
    method Boxes(xs: seq<DebugBox>)
      modifies this`boxes
      ensures boxes == old(boxes) + xs
    {
      boxes := boxes + xs;
    }

    /** `spheres(DebugSphere...)` */
    method Spheres(xs: seq<DebugSphere>)
      modifies this`spheres
      ensures spheres == old(spheres) + xs
    {
      spheres := spheres + xs;
    }

    /** `build()`: fails exactly when all four lists are empty; otherwise the
        batch holds exactly the builder's lists. */
    method Build() returns (r: Result<DebugDraw, Error>)
      ensures r.Failure? <==> texts == [] && lines == [] && boxes == [] && spheres == []
      ensures r.Failure? ==> r.error == OneOfRequired("draw elements")
      ensures r.Success? ==> r.value == DebugDraw(texts, lines, boxes, spheres)
      ensures r.Success? ==> !IsEmpty(r.value)
    {
      if texts == [] && lines == [] && boxes == [] && spheres == [] {
        return Failure(OneOfRequired("draw elements"));
      }
      r := Success(DebugDraw(texts, lines, boxes, spheres));
    }
  }

  /** Adding the same primitives in a different order gives a different
      batch: the lists are sequences, not sets. */
  method OrderMatters(x: DebugText, y: DebugText) returns (xy: Result<DebugDraw, Error>, yx: Result<DebugDraw, Error>)
    requires x != y
    ensures xy == Success(DebugDraw([x, y], [], [], []))
    ensures yx == Success(DebugDraw([y, x], [], [], []))
    ensures !Equals(xy.value, yx.value)
  {
    var a := new Builder();
    a.Texts([x]);
    a.Texts([y]);
    assert a.texts == [x, y];
    xy := a.Build();
    var b := new Builder();
    b.Texts([y, x]);
    assert b.texts == [y, x];
    yx := b.Build();
    assert xy.value.texts[0] != yx.value.texts[0];
  }

  /** `toSc2Api()`: each list is written to its repeated field with the same
      length and in the same order, element by element. */
  function ToSc2Api(d: DebugDraw, c: Converters): (w: WireDebugDraw)
    ensures |w.text| == |d.texts| && forall i :: 0 <= i < |d.texts| ==> w.text[i] == c.textToSc2Api(d.texts[i])
    ensures |w.lines| == |d.lines| && forall i :: 0 <= i < |d.lines| ==> w.lines[i] == c.lineToSc2Api(d.lines[i])
    ensures |w.boxes| == |d.boxes| && forall i :: 0 <= i < |d.boxes| ==> w.boxes[i] == c.boxToSc2Api(d.boxes[i])
    ensures |w.spheres| == |d.spheres| && forall i :: 0 <= i < |d.spheres| ==> w.spheres[i] == c.sphereToSc2Api(d.spheres[i])
  {
    WireDebugDraw(
      MapSeq(d.texts, c.textToSc2Api),
      MapSeq(d.lines, c.lineToSc2Api),
      MapSeq(d.boxes, c.boxToSc2Api),
      MapSeq(d.spheres, c.sphereToSc2Api))
  }

  /** The primitives' encoders lose nothing. */
  ghost predicate Injective(c: Converters) {
    && (forall a, b :: c.textToSc2Api(a) == c.textToSc2Api(b) ==> a == b)
    && (forall a, b :: c.lineToSc2Api(a) == c.lineToSc2Api(b) ==> a == b)
    && (forall a, b :: c.boxToSc2Api(a) == c.boxToSc2Api(b) ==> a == b)
    && (forall a, b :: c.sphereToSc2Api(a) == c.sphereToSc2Api(b) ==> a == b)
  }

  /** With lossless primitive encoders, two batches with the same encoding
      are the same batch: encoding keeps order and multiplicity. */
  lemma ToSc2ApiInjective(d: DebugDraw, e: DebugDraw, c: Converters)
    requires Injective(c)
    requires ToSc2Api(d, c) == ToSc2Api(e, c)
    ensures d == e
  {
    var w := ToSc2Api(d, c);
    forall i | 0 <= i < |d.texts| ensures d.texts[i] == e.texts[i] {
      assert c.textToSc2Api(d.texts[i]) == w.text[i] == c.textToSc2Api(e.texts[i]);
    }
    forall i | 0 <= i < |d.lines| ensures d.lines[i] == e.lines[i] {
      assert c.lineToSc2Api(d.lines[i]) == w.lines[i] == c.lineToSc2Api(e.lines[i]);
    }
    forall i | 0 <= i < |d.boxes| ensures d.boxes[i] == e.boxes[i] {
      assert c.boxToSc2Api(d.boxes[i]) == w.boxes[i] == c.boxToSc2Api(e.boxes[i]);
    }
    forall i | 0 <= i < |d.spheres| ensures d.spheres[i] == e.spheres[i] {
      assert c.sphereToSc2Api(d.spheres[i]) == w.spheres[i] == c.sphereToSc2Api(e.spheres[i]);
    }
  }

  /** `equals`: the four lists compared element by element, in order. */
  function Equals(a: DebugDraw, b: DebugDraw): (r: bool)
    ensures r <==> a == b
  {
    && a.texts == b.texts
    && a.lines == b.lines
    && a.boxes == b.boxes
    && a.spheres == b.spheres
  }

  /** A `java.util.ArrayList` that several objects can point to. */
  class ArrayList<T> {
    var elements: seq<T>

    constructor ()
      ensures elements == []
    {
      elements := [];
    }

    /** `addAll`: appends in order. */
    method AddAll(xs: seq<T>)
      modifies this
      ensures elements == old(elements) + xs
    {
      elements := elements + xs;
    }
  }

  /** The builder as the source writes it: the four lists are objects, and
      `build()` hands the very same objects to the batch
      (`texts = builder.texts` and so on). Only the text adder is written
      out; the other three adders work the same way on their own lists. */
  class SharingBuilder {
    const texts: ArrayList<DebugText>
    const lines: ArrayList<DebugLine>
    const boxes: ArrayList<DebugBox>
    const spheres: ArrayList<DebugSphere>

    constructor ()
      ensures fresh(texts) && fresh(lines) && fresh(boxes) && fresh(spheres)
      ensures texts.elements == [] && lines.elements == [] && boxes.elements == [] && spheres.elements == []
    {
      texts := new ArrayList();
      lines := new ArrayList();
      boxes := new ArrayList();
      spheres := new ArrayList();
    }

    method Texts(xs: seq<DebugText>)
      modifies texts
      ensures texts.elements == old(texts.elements) + xs
    {
      texts.AddAll(xs);
    }

    method Build() returns (r: Result<SharingDraw, Error>)
      ensures r.Failure? <==>
        texts.elements == [] && lines.elements == [] && boxes.elements == [] && spheres.elements == []
      ensures r.Failure? ==> r.error == OneOfRequired("draw elements")
      ensures r.Success? ==> fresh(r.value)
      ensures r.Success? ==>
        r.value.texts == texts && r.value.lines == lines && r.value.boxes == boxes && r.value.spheres == spheres
    {
      if texts.elements == [] && lines.elements == [] && boxes.elements == [] && spheres.elements == [] {
        return Failure(OneOfRequired("draw elements"));
      }
      var d := new SharingDraw(texts, lines, boxes, spheres);
      r := Success(d);
    }
  }

  /** The batch as the source writes it: it keeps the builder's lists. */
  class SharingDraw {
    const texts: ArrayList<DebugText>
    const lines: ArrayList<DebugLine>
    const boxes: ArrayList<DebugBox>
    const spheres: ArrayList<DebugSphere>

    constructor (texts: ArrayList<DebugText>, lines: ArrayList<DebugLine>, boxes: ArrayList<DebugBox>, spheres: ArrayList<DebugSphere>)
      ensures this.texts == texts && this.lines == lines && this.boxes == boxes && this.spheres == spheres
    {
      this.texts, this.lines, this.boxes, this.spheres := texts, lines, boxes, spheres;
    }

    /** `getTexts()`: a copy of the list as it is now, so it shows whatever
        was added to the shared list since the batch was built. */
    function GetTexts(): (r: seq<DebugText>)
      reads texts
    {
      texts.elements
    }
  }

  /** As written, a batch changes after it was built: adding a text to the
      builder afterwards also adds it to the batch. */
  method SharingBuilderLeaks(t1: DebugText, t2: DebugText) returns (atBuild: seq<DebugText>, afterAdd: seq<DebugText>)
    ensures atBuild == [t1]
    ensures afterAdd == [t1, t2]
  {
    var b := new SharingBuilder();
    b.Texts([t1]);
    var r := b.Build();
    var d := r.value;
    atBuild := d.GetTexts();
    b.Texts([t2]);
    afterAdd := d.GetTexts();
  }

  /** With the builder's lists copied into the batch, a batch keeps the
      contents it was built with, whatever the builder does afterwards. */
  method BuiltDrawIsDetached(t1: DebugText, t2: DebugText) returns (atBuild: seq<DebugText>, afterAdd: seq<DebugText>)
    ensures atBuild == [t1]
    ensures afterAdd == [t1]
  {
    var b := new Builder();
    b.Texts([t1]);
    var r := b.Build();
    var d := r.value;
    atBuild := d.texts;
    b.Texts([t2]);
    afterAdd := d.texts;
  }
}
