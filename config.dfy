/**
 * The application settings the core reads: the recipe colour palette, the
 * step-classification keyword lists and the timing limits. They are fixed
 * values; every service reads the same ones.
 */
module Config {

  /** Colour tags handed to recipes in turn (red, yellow, green, blue, purple, orange, black, white circles). */
  const RecipeColors: seq<string> :=
    ["\U{1F534}", "\U{1F7E1}", "\U{1F7E2}", "\U{1F535}", "\U{1F7E3}", "\U{1F7E0}", "\U{26AB}", "\U{26AA}"]

  const PrepKeywords: seq<string> :=
    ["chop", "dice", "slice", "mince", "prep", "cut", "wash", "peel", "measure"]

  const CookingKeywords: seq<string> :=
    ["cook", "bake", "fry", "boil", "simmer", "saut\U{e9}", "roast", "grill", "heat"]

  const MultitaskKeywords: seq<string> :=
    ["bake", "simmer", "marinate", "chill", "rest", "rise", "cool"]

  /** Minutes assumed for a step whose duration is unknown. */
  const DefaultStepTime: int := 5
  const MinStepTime: int := 1
  const MaxStepTime: int := 180

  /** Minimum minutes of preparation before a target time without a warning. */
  const MinPrepTime: int := 10

  /** Share of the available time above which a plan counts as tight. */
  const WarningThreshold: real := 0.8
}
