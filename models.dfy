/**
 * The entity shapes of the catalog: products ("balls") with their colours and logos,
 * cores with their per-weight specs, and the reference vocabulary.
 *
 * An optional text field that is `undefined` in the application is the empty string
 * here; every modelled operation treats the two alike (both are falsy).
 */
module Models {
  import opened Wrappers
  import Text

  /** One colour entry of a product: position 1..4, colour name, optional shade. */
  datatype BallColor = BallColor(colorNumber: int, color: string, shade: string)

  datatype LogoConfig = LogoConfig(logo: string, color: string)

  /** The five fixed logo positions of a product. */
  datatype Logos = Logos(top: LogoConfig, left: LogoConfig, right: LogoConfig, mid: LogoConfig, psa: LogoConfig)

  const NoLogo := LogoConfig("", "")
  const EmptyLogos := Logos(NoLogo, NoLogo, NoLogo, NoLogo, NoLogo)

  /** A code that the seed data writes either as text or as a number (`string | number`). */
  datatype CodeValue = CodeText(text: string) | CodeNumber(n: int)

  /** `String(code)`. */
  function CodeString(c: CodeValue): string {
    match c
    case CodeText(t) => t
    case CodeNumber(n) => Text.IntToString(n)
  }

  /** JavaScript truthiness of a code: a non-empty text or a non-zero number. */
  predicate CodeTruthy(c: CodeValue) {
    match c
    case CodeText(t) => t != ""
    case CodeNumber(n) => n != 0
  }

  const NoCode := CodeText("")

  /** A product record. */
  datatype Ball = Ball(
    id: string,
    ballName: string,
    brand: string,
    line: string,
    sku: string,
    releaseType: string,
    releaseDate: string,
    coverstock: string,
    coverstockType: string,
    finish: string,
    productionFinish: string,
    core: string,
    coreNumber: CodeValue,
    weightBlockNumber: CodeValue,
    marketingColorName: string,
    pinColor: string,
    colors: seq<BallColor>,
    fragrance: string,
    fragranceMarketing: string,
    logos: Option<Logos>,
    specialNotes: string,
    drillInstructions: string,
    createdAt: string,
    updatedAt: string)

  /** One weight's measurements: weight in pounds, radius of gyration, differentials. */
  datatype CoreWeightSpec = CoreWeightSpec(weight: int, rg: real, differential: real, intermediate: real)

  /** A core (weight block) record. */
  datatype Core = Core(
    id: string,
    marketingName: string,
    coreNumber: CodeValue,
    weightBlockNumber: CodeValue,
    line: string,
    isSymmetric: bool,
    specs: seq<CoreWeightSpec>)

  datatype ColorOption = ColorOption(name: string, shades: Option<seq<string>>, hex: Option<string>)

  /** The controlled vocabularies, with the optional extended lists. */
  datatype ReferenceData = ReferenceData(
    coverstocks: seq<string>,
    finishes: seq<string>,
    weightBlocks: seq<string>,
    brands: seq<string>,
    lines: seq<string>,
    coverstockTypes: seq<string>,
    colors: Option<seq<ColorOption>>,
    fragrances: Option<seq<string>>,
    logos: Option<seq<string>>)
}
