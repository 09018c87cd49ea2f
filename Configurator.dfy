/** The table configurator page: its option tables, the model paths it hands
    the 3D viewer, the one-line summary of the chosen dimensions, and the ten
    state slots that the reset button restores. A slider's value is an array
    of numbers; the page reads its first element. */
module Configurator {
  import opened JsBuiltins
  import TableTop
  import CombinedModel

  datatype OptionEntry = OptionEntry(value: string, caption: string)
  datatype BaseEntry = BaseEntry(value: string, caption: string, model: string)

  const Materials: seq<OptionEntry> := [
    OptionEntry("carrara", "Marmură Carrara"),
    OptionEntry("calacatta", "Marmură Calacatta"),
    OptionEntry("statuario", "Marmură Statuario"),
    OptionEntry("nero-marquina", "Granit Nero Marquina"),
    OptionEntry("nero-assoluto", "Granit Nero Assoluto"),
    OptionEntry("natural", "Granit Natural")]

  const Shapes: seq<OptionEntry> := [
    OptionEntry("rectangular", "Dreptunghiulară"),
    OptionEntry("square", "Pătrată"),
    OptionEntry("round", "Rotundă"),
    OptionEntry("oval", "Ovală"),
    OptionEntry("curved-rectangular", "Dreptunghiulară Curbată")]

  const EdgeFinishes: seq<OptionEntry> := [
    OptionEntry("polished", "Lustruită"),
    OptionEntry("honed", "Mată"),
    OptionEntry("chiseled", "Ciocănită"),
    OptionEntry("bullnose", "Rotunjită")]

  const BaseStyles: seq<BaseEntry> := [
    BaseEntry("pedestal", "Piedestal", "BaseMonolithCurveX.glb"),
    BaseEntry("trestle", "Suport Trepied", "TieBaseX.glb"),
    BaseEntry("legs", "Picioare Clasice", "XSoloBaseX.glb"),
    BaseEntry("metal", "Bază Metalică", "XCrossBaseX.glb"),
    BaseEntry("cylindric", "Bază Cilindrică", "CylindricWoodBaseX.glb"),
    BaseEntry("twin", "Bază Dublă", "SquareTwinBaseX.glb"),
    BaseEntry("x-inclined", "Bază X Înclinată", "XBaseInclinedX.glb"),
    BaseEntry("x-parallel", "Bază X Paralelă", "XCrossParalelX.glb"),
    BaseEntry("twin-leaner", "Bază Dublă Înclinată", "TwinLeanerBaseX.glb"),
    BaseEntry("semicircle", "Bază Semicerc", "SemiCircleBaseX.glb"),
    BaseEntry("africa", "Bază Africa", "AfricaX.glb"),
    BaseEntry("valhalla", "Bază Valhalla", "ValhallaX.glb")]

  const ShapeToModel: map<string, string> := map[
    "rectangular" := "RectangleTable21.glb",
    "round" := "RoundTable.glb",
    "oval" := "OvalTable.glb",
    "square" := "SquareTable.glb",
    "curved-rectangular" := "CurvedRectangle21X.glb"]

  const ModelsDir: string := "/models/"

  // ---------------------------------------------------------------------------
  // Model paths

  /** The table-top model of a shape, or the rectangular one for a shape the
      table does not know. */
  function TableModel(shape: string): (m: string)
    ensures m in ShapeToModel.Values
    ensures shape in ShapeToModel ==> m == ShapeToModel[shape]
    ensures shape !in ShapeToModel ==> m == "RectangleTable21.glb"
  {
    if shape in ShapeToModel && ShapeToModel[shape] != "" then ShapeToModel[shape] else ShapeToModel["rectangular"]
  }

  /** `tableTopPath`: always set, always a model of the table. */
  function TableTopPath(shape: string): (path: string)
    ensures StartsWith(path, ModelsDir) && path[|ModelsDir|..] in ShapeToModel.Values
  {
    var path := ModelsDir + TableModel(shape);
    assert path[..|ModelsDir|] == ModelsDir && path[|ModelsDir|..] == TableModel(shape);
    path
  }

  predicate HasValue(b: BaseEntry, value: string) {
    b.value == value
  }

  /** `basePath`: the model of the first base style whose value matches, or
      nothing when no style matches or its model is empty. The page looks in
      `BaseStyles`, whose values are distinct, so the first match is the
      only one. */
  function BasePath(styles: seq<BaseEntry>, baseStyle: string): (path: Option<string>)
    ensures (forall i :: 0 <= i < |styles| ==> styles[i].value != baseStyle) ==> path.None?
    ensures forall i :: 0 <= i < |styles| && styles[i].value == baseStyle &&
                        (forall j :: 0 <= j < i ==> styles[j].value != baseStyle) ==>
              path == if styles[i].model != "" then Some(ModelsDir + styles[i].model) else None
  {
    var selected := Find(styles, b => HasValue(b, baseStyle));
    if selected.Some? && selected.value.model != "" then Some(ModelsDir + selected.value.model) else None
  }

  /** Every base style of the page has a model, so a base style the table
      knows always gets a path. */
  lemma KnownBaseStyleHasPath(i: nat)
    requires i < |BaseStyles|
    ensures BasePath(BaseStyles, BaseStyles[i].value) == Some(ModelsDir + BaseStyles[i].model)
  {
    BaseStyleValuesDistinct();
    assert BaseStyles[i].model != "";
  }

  /** No two base styles share a value, so the style a value finds is the
      only one it could mean. */
  lemma BaseStyleValuesDistinct()
    ensures forall i, j :: 0 <= i < j < |BaseStyles| ==> BaseStyles[i].value != BaseStyles[j].value
  {
  }

  /** The viewer always gets a model path from this page, and no dimensions,
      so it shows and positions a loaded model, never a generated top. */
  lemma ViewerAlwaysLoadsModel(shape: string)
    ensures CombinedModel.ChooseTop(Some(TableTopPath(shape)), Some(shape), None) == CombinedModel.LoadedModel
    ensures !CombinedModel.PositionsAsGenerated(Some(TableTopPath(shape)), Some(shape))
  {
  }

  // ---------------------------------------------------------------------------
  // Labels and the summary

  predicate OptionHasValue(e: OptionEntry, value: string) {
    e.value == value
  }

  /** `options.find(o => o.value === value)?.label` */
  function LabelOf(options: seq<OptionEntry>, value: string): (caption: Option<string>)
    ensures caption.None? <==> forall i :: 0 <= i < |options| ==> options[i].value != value
    ensures forall i :: 0 <= i < |options| && options[i].value == value &&
                        (forall j :: 0 <= j < i ==> options[j].value != value) ==>
              caption == Some(options[i].caption)
  {
    var e := Find(options, o => OptionHasValue(o, value));
    if e.Some? then Some(e.value.caption) else None
  }

  /** The base-style label of a value, by the same lookup. */
  function BaseLabelOf(styles: seq<BaseEntry>, value: string): (caption: Option<string>)
    ensures caption.None? <==> forall i :: 0 <= i < |styles| ==> styles[i].value != value
    ensures forall i :: 0 <= i < |styles| && styles[i].value == value &&
                        (forall j :: 0 <= j < i ==> styles[j].value != value) ==>
              caption == Some(styles[i].caption)
  {
    var b := Find(styles, e => HasValue(e, value));
    if b.Some? then Some(b.value.caption) else None
  }

  /** A slider's first value as a template literal shows it: its decimal
      digits, or "undefined" for an empty value array. */
  function SlotText(slot: seq<int>): (s: string)
    ensures |slot| > 0 ==> s == IntToDecimal(slot[0])
    ensures |slot| == 0 ==> s == "undefined"
  {
    if |slot| > 0 then IntToDecimal(slot[0]) else "undefined"
  }

  const CornerSuffixEnd: string := " cm)"

  /** The clause of a rectangular shape: its length, and the corner radius
      when that is positive. */
  function RectangularSummary(length: seq<int>, borderRadius: seq<int>): string {
    SlotText(length) + " cm" +
    (if |borderRadius| > 0 && borderRadius[0] > 0 then " (rază colțuri: " + SlotText(borderRadius) + CornerSuffixEnd else "")
  }

  /** The dimensions line of the summary: only the active shape's clause,
      and nothing for a shape the page does not know. */
  function DimensionSummary(shape: string, radius: seq<int>, squareLength: seq<int>, length: seq<int>,
                            borderRadius: seq<int>, largestDiameter: seq<int>, smallestDiameter: seq<int>): string
  {
    match shape
    case "round" => SlotText(radius) + " cm (rază)"
    case "square" => SlotText(squareLength) + " cm"
    case "rectangular" | "curved-rectangular" => RectangularSummary(length, borderRadius)
    case "oval" => "Diametru mare: " + SlotText(largestDiameter) + " cm, Diametru mic: " + SlotText(smallestDiameter) + " cm"
    case _ => ""
  }

  /** For a rectangular shape the corner-radius clause is shown exactly when
      the corner radius is positive. */
  lemma CornerClauseIff(shape: string, radius: seq<int>, squareLength: seq<int>, length: seq<int>,
                        borderRadius: seq<int>, largestDiameter: seq<int>, smallestDiameter: seq<int>)
    requires shape == "rectangular" || shape == "curved-rectangular"
    ensures EndsWith(DimensionSummary(shape, radius, squareLength, length, borderRadius, largestDiameter, smallestDiameter),
                     CornerSuffixEnd)
            <==> |borderRadius| > 0 && borderRadius[0] > 0
  {
    RectangularCornerClause(length, borderRadius);
  }

  lemma RectangularCornerClause(length: seq<int>, borderRadius: seq<int>)
    ensures EndsWith(RectangularSummary(length, borderRadius), CornerSuffixEnd) <==> |borderRadius| > 0 && borderRadius[0] > 0
  {
    var s := RectangularSummary(length, borderRadius);
    var head := SlotText(length) + " cm";
    if |borderRadius| > 0 && borderRadius[0] > 0 {
      var pre := head + " (rază colțuri: " + SlotText(borderRadius);
      assert s == pre + CornerSuffixEnd;
      EndsWithAppended(pre, CornerSuffixEnd);
    } else {
      assert s == head && s[|s| - 1] == 'm';
      LastCharDiffers(s, CornerSuffixEnd);
    }
  }

  /** The summary of a round table names its radius: two radii with the same
      summary are the same radius. */
  lemma RoundSummaryShowsRadius(r1: int, r2: int, squareLength: seq<int>, length: seq<int>,
                                borderRadius: seq<int>, largestDiameter: seq<int>, smallestDiameter: seq<int>)
    requires DimensionSummary("round", [r1], squareLength, length, borderRadius, largestDiameter, smallestDiameter) ==
             DimensionSummary("round", [r2], squareLength, length, borderRadius, largestDiameter, smallestDiameter)
    ensures r1 == r2
  {
    var t1, t2 := SlotText([r1]), SlotText([r2]);
    var suffix := " cm (rază)";
    assert t1 + suffix == t2 + suffix;
    assert t1 == (t1 + suffix)[..|t1 + suffix| - |suffix|];
    assert t2 == (t2 + suffix)[..|t2 + suffix| - |suffix|];
    IntToDecimalInjective(r1, r2);
  }

  /** A shape outside the option table gets no dimensions line. */
  lemma UnknownShapeHasNoSummary(shape: string, radius: seq<int>, squareLength: seq<int>, length: seq<int>,
                                 borderRadius: seq<int>, largestDiameter: seq<int>, smallestDiameter: seq<int>)
    requires LabelOf(Shapes, shape).None?
    ensures DimensionSummary(shape, radius, squareLength, length, borderRadius, largestDiameter, smallestDiameter) == ""
  {
    assert Shapes[0].value == "rectangular" && Shapes[1].value == "square" && Shapes[2].value == "round" &&
           Shapes[3].value == "oval" && Shapes[4].value == "curved-rectangular";
  }

  // ---------------------------------------------------------------------------
  // Materials

  /** Three of the page's materials have no texture of their own, so a loaded
      top made of them shows the default white Calacatta texture. */
  lemma UntexturedMaterial(dev: bool, i: nat)
    requires 3 <= i < |Materials|
    ensures LabelOf(Materials, Materials[i].value).Some?
    ensures Materials[i].value !in TableTop.TextureFiles
    ensures TableTop.TextureUrl(dev, Some(Materials[i].value)) == TableTop.TextureFileUrl(dev, TableTop.DefaultTextureFile)
  {
    NoOwnTexture(Materials[i].value);
  }

  lemma NoOwnTexture(m: string)
    requires m == "nero-marquina" || m == "nero-assoluto" || m == "natural"
    ensures m !in TableTop.TextureFiles
  {
  }

  /** The other three have a texture of their own. */
  lemma TexturedMaterial(i: nat)
    requires i < 3
    ensures LabelOf(Materials, Materials[i].value).Some?
    ensures Materials[i].value in TableTop.TextureFiles
  {
  }

  // ---------------------------------------------------------------------------
  // State

  const InitialMaterial: string := "carrara"
  const InitialShape: string := "rectangular"
  const InitialEdgeFinish: string := "polished"
  const InitialBaseStyle: string := "pedestal"

  /** Every initial option is the first entry of its table, so it has that
      entry's label. */
  lemma InitialMaterialLabel()
    ensures LabelOf(Materials, InitialMaterial) == Some("Marmură Carrara")
  {
    assert Materials[0].value == InitialMaterial;
  }

  lemma InitialShapeLabel()
    ensures LabelOf(Shapes, InitialShape) == Some("Dreptunghiulară")
  {
    assert Shapes[0].value == InitialShape;
  }

  lemma InitialEdgeFinishLabel()
    ensures LabelOf(EdgeFinishes, InitialEdgeFinish) == Some("Lustruită")
  {
    assert EdgeFinishes[0].value == InitialEdgeFinish;
  }

  lemma InitialBaseStyleLabel()
    ensures BaseLabelOf(BaseStyles, InitialBaseStyle) == Some("Piedestal")
  {
    assert BaseStyles[0].value == InitialBaseStyle;
  }

  /** The page's ten state slots. */
  class ConfiguratorState {
    var material: string
    var shape: string
    var radius: seq<int>
    var squareLength: seq<int>
    var length: seq<int>
    var largestDiameter: seq<int>
    var smallestDiameter: seq<int>
    var borderRadius: seq<int>
    var edgeFinish: string
    var baseStyle: string

    /** Every slot holds its initial `useState` value. */
    predicate IsInitial()
      reads this
    {
      material == InitialMaterial && shape == InitialShape &&
      radius == [100] && squareLength == [150] && length == [200] &&
      largestDiameter == [200] && smallestDiameter == [120] && borderRadius == [5] &&
      edgeFinish == InitialEdgeFinish && baseStyle == InitialBaseStyle
    }

    constructor ()
      ensures IsInitial()
    {
      material, shape := InitialMaterial, InitialShape;
      radius, squareLength, length := [100], [150], [200];
      largestDiameter, smallestDiameter, borderRadius := [200], [120], [5];
      edgeFinish, baseStyle := InitialEdgeFinish, InitialBaseStyle;
    }

    /** `resetConfig`: every slot back to its initial value. */
    method ResetConfig()
      modifies this
      ensures IsInitial()
    {
      material := InitialMaterial;
      shape := InitialShape;
      radius := [100];
      squareLength := [150];
      length := [200];
      largestDiameter := [200];
      smallestDiameter := [120];
      borderRadius := [5];
      edgeFinish := InitialEdgeFinish;
      baseStyle := InitialBaseStyle;
    }

    /** What the summary shows for the current slots. */
    function Summary(): string
      reads this
    {
      DimensionSummary(shape, radius, squareLength, length, borderRadius, largestDiameter, smallestDiameter)
    }
  }

  /** The initial configuration summarises as a 200 cm rectangle with 5 cm
      corners. */
  lemma InitialSummary(c: ConfiguratorState)
    requires c.IsInitial()
    ensures c.Summary() == "200 cm (rază colțuri: 5 cm)"
  {
    assert c.Summary() == RectangularSummary([200], [5]);
    InitialRectangularSummary();
  }

  lemma InitialRectangularSummary()
    ensures RectangularSummary([200], [5]) == "200 cm (rază colțuri: 5 cm)"
  {
    DecimalOf200();
    assert SlotText([200]) == "200";
    assert SlotText([5]) == "5";
    assert RectangularSummary([200], [5]) == "200" + " cm" + (" (rază colțuri: " + "5" + CornerSuffixEnd);
  }

  lemma DecimalOf200()
    ensures IntToDecimal(200) == "200"
  {
    assert NatToDecimal(2) == "2";
    assert NatToDecimal(20) == NatToDecimal(2) + [DigitChar(0)];
    assert NatToDecimal(200) == NatToDecimal(20) + [DigitChar(0)];
  }
}
