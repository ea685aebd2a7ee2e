/** The entities the components share: meal slots, foods as the backend
    returns them, quantity modes and the candidates a text turns into. */
module Domain {
  import opened Js
  import opened Numbers

  /** The six meal slots, in the order the daily log shows them. */
  datatype MealSlot = Desayuno | Almuerzo | Merienda | Cena | Snacks | Extra

  /** The slot's id as sent to the backend (`tipo_comida`). */
  function SlotId(s: MealSlot): string {
    match s
    case Desayuno => "desayuno"
    case Almuerzo => "almuerzo"
    case Merienda => "merienda"
    case Cena => "cena"
    case Snacks => "snacks"
    case Extra => "extra"
  }

  /** Slot ids tell slots apart, so a slot's entries are exactly those
      carrying its id. */
  lemma SlotIdInjective(a: MealSlot, b: MealSlot)
    ensures SlotId(a) == SlotId(b) <==> a == b
  {
  }

  /** How a quantity is meant: portions of the food, or grams. */
  datatype Mode = Porcion | Peso

  /** A food as the backend returns it; any nutrient may be `null`. */
  datatype Food = Food(id: nat, nombre: string, calorias: JsNum, grasas: JsNum,
                       carbohidratos: JsNum, proteinas: JsNum, sodio: JsNum,
                       pesoPorcion: JsNum)

  /** A saved meal template, as the chat sees it. */
  datatype Meal = Meal(id: nat, nombre: string)

  /** A food recognised in a text, with the quantity and mode read from it. */
  datatype Candidate = Candidate(alimentoId: nat, alimento: Food, cantidad: real, modo: Mode)

  /** The daily limits as the parent passes them down. */
  datatype Limits = Limits(calorias: JsNum, grasas: JsNum, carbohidratos: JsNum, proteinas: JsNum)

  /** `peso_porcion || 100`: the grams in one portion, never 0. */
  function PortionWeight(f: Food): (w: real)
    ensures w != 0.0
  {
    Or(f.pesoPorcion, 100.0)
  }

  /** The grams logged for a candidate: portions times the portion weight, or
      the quantity itself in weight mode. */
  function Grams(c: Candidate): real {
    if c.modo == Porcion then c.cantidad * PortionWeight(c.alimento) else c.cantidad
  }

  /** Converting portions to grams loses nothing: dividing by the portion
      weight gives the portions back. */
  lemma GramsToPortions(c: Candidate)
    requires c.modo == Porcion
    ensures Grams(c) / PortionWeight(c.alimento) == c.cantidad
  {
  }

  /** Text in a form field: typed by the user, or written by the code from a
      number with `toString()`. */
  datatype FieldText = Typed(s: string) | Rendered(v: real)

  /** `parseFloat` of the field's text. A number the code wrote reads back as
      itself (`parseFloat(String(x)) == x` holds for every finite number). */
  function FieldValue(f: FieldText): JsNum {
    match f
    case Typed(s) => ParseFloat(s)
    case Rendered(v) => Num(v)
  }
}
