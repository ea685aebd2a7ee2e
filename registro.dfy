/** The daily log (`RegistroDiario`): progress against the limits, the
    per-slot cards, how quantities become grams when an entry is added or
    edited, the nutrient preview, and how a logged quantity is shown. */
module Registro {
  import opened Js
  import opened Seqs
  import opened Numbers
  import opened Format
  import opened Domain
  import opened Backend
  import opened Buscador

  // ---------------------------------------------------------------------
  // Progress against the limits.

  /** `calcularPorcentaje(actual, limite)`: 0 without a usable limit,
      otherwise the share of the limit in percent, capped at 100. */
  function Percent(actual: real, limite: JsNum): (p: real)
    ensures p <= 100.0
    ensures !Truthy(limite) ==> p == 0.0
  {
    if !Truthy(limite) then 0.0
    else
      var share := actual / limite.v * 100.0;
      if share < 100.0 then share else 100.0
  }

  /** Against a positive limit, a non-negative intake gives a percentage in
      [0, 100], and the cap is reached exactly when the intake reaches the
      limit. */
  lemma PercentOfPositiveLimit(actual: real, l: real)
    requires l > 0.0
    ensures actual >= 0.0 ==> 0.0 <= Percent(actual, Num(l))
    ensures Percent(actual, Num(l)) == 100.0 <==> actual >= l
    ensures actual < l ==> Percent(actual, Num(l)) == actual / l * 100.0
  {
    ShareAtLeast(actual, l, 100.0);
  }

  /** Multiplying by a positive number keeps the order. */
  lemma MulMono(a: real, b: real, w: real)
    requires w > 0.0
    ensures a <= b ==> a * w <= b * w
  {
  }

  /** `actual / l * 100 >= bound` exactly when `actual >= bound / 100 * l`. */
  lemma ShareAtLeast(actual: real, l: real, bound: real)
    requires l > 0.0
    ensures actual / l * 100.0 >= bound <==> actual >= bound / 100.0 * l
  {
    var q := actual / l;
    assert actual == q * l;
    if q * 100.0 >= bound {
      assert q * l >= bound / 100.0 * l;
    }
    if actual >= bound / 100.0 * l {
      assert q * l >= (bound / 100.0) * l;
      assert q >= bound / 100.0;
    }
  }

  /** The colour of a progress bar. */
  datatype Color = Plain | Warning | Danger

  /** `getProgressColor(porcentaje)`. */
  function ProgressColor(p: real): Color {
    if p >= 100.0 then Danger else if p >= 80.0 then Warning else Plain
  }

  /** Against a positive limit the colour tells how far the intake has got:
      red from the limit on, amber from 80% of it, plain below. */
  lemma ColorOfIntake(actual: real, l: real)
    requires l > 0.0
    ensures ProgressColor(Percent(actual, Num(l))) == Danger <==> actual >= l
    ensures ProgressColor(Percent(actual, Num(l))) == Warning <==> 0.8 * l <= actual < l
    ensures ProgressColor(Percent(actual, Num(l))) == Plain <==> actual < 0.8 * l
  {
    PercentOfPositiveLimit(actual, l);
    ShareAtLeast(actual, l, 80.0);
  }

  /** Without a usable limit every bar stays plain. */
  lemma NoLimitStaysPlain(actual: real, limite: JsNum)
    requires !Truthy(limite)
    ensures ProgressColor(Percent(actual, limite)) == Plain
  {
  }

  /** `limite / 4`: `null` counts as 0, NaN stays NaN. */
  function Quarter(limite: JsNum): (q: JsNum)
    ensures Truthy(q) <==> Truthy(limite)
  {
    match limite
    case Null => Num(0.0)
    case NaN => NaN
    case Num(v) => Num(v / 4.0)
  }

  /** The colour of a slot card: the slot's total against a quarter of the
      daily limit. */
  function CardColor(total: real, limite: JsNum): Color {
    ProgressColor(Percent(total, Quarter(limite)))
  }

  /** The colour of the day summary: the day's total (`|| 0`) against the
      whole limit. */
  function DayColor(total: JsNum, limite: JsNum): Color {
    ProgressColor(Percent(Or(total, 0.0), limite))
  }

  /** A card measures its slot as if it were a quarter of the day: its
      percentage is the day's percentage of four times the slot's total. */
  lemma CardIsFourTimes(total: real, limite: JsNum)
    ensures Percent(total, Quarter(limite)) == Percent(4.0 * total, limite)
  {
    if Truthy(limite) {
      var v := limite.v;
      assert total / (v / 4.0) == 4.0 * total / v;
    }
  }

  /** A card turns red once its slot alone reaches a quarter of the limit. */
  lemma CardDanger(total: real, l: real)
    requires l > 0.0
    ensures CardColor(total, Num(l)) == Danger <==> 4.0 * total >= l
  {
    CardIsFourTimes(total, Num(l));
    ColorOfIntake(4.0 * total, l);
  }

  // ---------------------------------------------------------------------
  // Entries and per-slot summaries.

  /** A logged entry as the backend returns it; an `id` of 0 stands for a
      missing (falsy) id. */
  datatype Entry = Entry(id: nat, tipoComida: string, alimentoId: nat, cantidad: real)

  /** `getRegistrosPorComida(tipoComida)`: the slot's entries, in order. */
  function RegistrosPorComida(registros: seq<Entry>, tipoComida: string): (r: seq<Entry>)
    ensures forall k :: 0 <= k < |r| ==> r[k].tipoComida == tipoComida
  {
    Filter(registros, (e: Entry) => e.tipoComida == tipoComida)
  }

  /** A card lists an entry exactly when the entry belongs to its slot. */
  lemma RegistrosPorComidaMembership(registros: seq<Entry>, tipoComida: string, e: Entry)
    ensures e in RegistrosPorComida(registros, tipoComida) <==> e in registros && e.tipoComida == tipoComida
  {
    FilterMembership(registros, (e: Entry) => e.tipoComida == tipoComida, e);
  }

  /** The six cards, in the order the log shows them. */
  const Slots: seq<MealSlot> := [Desayuno, Almuerzo, Merienda, Cena, Snacks, Extra]

  /** How many entries the six cards list together. */
  function CardEntries(registros: seq<Entry>): nat {
    |RegistrosPorComida(registros, SlotId(Desayuno))| + |RegistrosPorComida(registros, SlotId(Almuerzo))|
    + |RegistrosPorComida(registros, SlotId(Merienda))| + |RegistrosPorComida(registros, SlotId(Cena))|
    + |RegistrosPorComida(registros, SlotId(Snacks))| + |RegistrosPorComida(registros, SlotId(Extra))|
  }

  /** When every entry carries one of the six slot ids, the cards list each
      entry exactly once. */
  lemma {:induction false} CardsListEveryEntryOnce(registros: seq<Entry>)
    requires forall k :: 0 <= k < |registros| ==> exists s :: registros[k].tipoComida == SlotId(s)
    ensures CardEntries(registros) == |registros|
  {
    if registros != [] {
      var rest := registros[1..];
      forall k | 0 <= k < |rest| ensures exists s :: rest[k].tipoComida == SlotId(s) {
        assert rest[k] == registros[k + 1];
      }
      assert forall k :: 0 <= k < |rest| ==> exists s :: rest[k].tipoComida == SlotId(s);
      CardsListEveryEntryOnce(rest);
      var s :| registros[0].tipoComida == SlotId(s);
      forall t: MealSlot {
        SlotIdInjective(s, t);
      }
    }
  }

  /** Totals of a slot as the backend's summary reports them. */
  datatype Totals = Totals(calorias: real, grasas: real, carbohidratos: real, proteinas: real, sodio: real)

  datatype SlotSummary = SlotSummary(tipoComida: string, totals: Totals)

  const ZeroTotals := Totals(0.0, 0.0, 0.0, 0.0, 0.0)

  /** `getResumenPorComida(tipoComida)`: the first summary of the slot, or
      all zeros when the backend sent none. */
  function ResumenPorComida(porComida: seq<SlotSummary>, tipoComida: string): (t: Totals)
    ensures (forall k :: 0 <= k < |porComida| ==> porComida[k].tipoComida != tipoComida) ==> t == ZeroTotals
  {
    match Find(porComida, (s: SlotSummary) => s.tipoComida == tipoComida)
    case Some(s) => s.totals
    case None => ZeroTotals
  }

  /** When the slot has summaries, the first one is used. */
  lemma ResumenPorComidaFirst(porComida: seq<SlotSummary>, tipoComida: string, k: nat)
    requires k < |porComida| && porComida[k].tipoComida == tipoComida
    requires forall j :: 0 <= j < k ==> porComida[j].tipoComida != tipoComida
    ensures ResumenPorComida(porComida, tipoComida) == porComida[k].totals
  {
    var p := (s: SlotSummary) => s.tipoComida == tipoComida;
    var r := Find(porComida, p);
    assert r.Some?;
    var i :| 0 <= i < |porComida| && porComida[i] == r.value && forall j :: 0 <= j < i ==> !p(porComida[j]);
    if i != k {
      assert false;
    }
  }

  // ---------------------------------------------------------------------
  // Finding foods and turning quantities into grams.

  /** The grams posted for a quantity: portions times the portion weight, or
      the quantity itself in weight mode; NaN goes through as NaN. */
  function GramsFor(f: Food, cantidad: JsNum, modo: Mode): JsNum {
    if modo == Peso then cantidad else Times(cantidad, PortionWeight(f))
  }

  /** The add form converts exactly as the chat and the assistant do. */
  lemma GramsForIsGrams(f: Food, v: real, modo: Mode)
    ensures GramsFor(f, Num(v), modo) == Num(Grams(Candidate(f.id, f, v, modo)))
  {
  }

  /** `factor = cantidadFinal / (peso_porcion || 100)`: portions of the food. */
  function PreviewFactor(f: Food, cantidad: JsNum, modo: Mode): JsNum {
    match GramsFor(f, cantidad, modo)
    case Num(g) => Num(g / PortionWeight(f))
    case Null => Num(0.0)
    case NaN => NaN
  }

  /** In portion mode the factor is the number of portions typed; in weight
      mode it is the grams over the portion weight. */
  lemma PreviewFactorIsPortions(f: Food, v: real, modo: Mode)
    ensures PreviewFactor(f, Num(v), modo) == Num(if modo == Porcion then v else v / PortionWeight(f))
  {
    var w := PortionWeight(f);
    if modo == Porcion {
      assert v * w / w == v;
    }
  }

  /** The nutrients a preview shows, before `formatNutrient`. */
  datatype Nutrients = Nutrients(calorias: JsNum, grasas: JsNum, carbohidratos: JsNum, proteinas: JsNum)

  /** The preview: calories scaled as they are (`null` becomes 0), the other
      nutrients defaulting to 0 first; a NaN factor makes everything NaN. */
  function Preview(f: Food, cantidad: JsNum, modo: Mode): Nutrients {
    match PreviewFactor(f, cantidad, modo)
    case Num(k) =>
      Nutrients(Times(f.calorias, k), Num(Or(f.grasas, 0.0) * k),
                Num(Or(f.carbohidratos, 0.0) * k), Num(Or(f.proteinas, 0.0) * k))
    case _ => Nutrients(NaN, NaN, NaN, NaN)
  }

  /** In portion mode the preview is the food's values times the portions. */
  lemma PreviewOfPortions(f: Food, v: real)
    ensures Preview(f, Num(v), Porcion)
      == Nutrients(Times(f.calorias, v), Num(Or(f.grasas, 0.0) * v),
                   Num(Or(f.carbohidratos, 0.0) * v), Num(Or(f.proteinas, 0.0) * v))
  {
    PreviewFactorIsPortions(f, v, Porcion);
    assert PreviewFactor(f, Num(v), Porcion) == Num(v);
    assert Preview(f, Num(v), Porcion).calorias == Times(f.calorias, v);
    assert Preview(f, Num(v), Porcion).grasas == Num(Or(f.grasas, 0.0) * v);
    assert Preview(f, Num(v), Porcion).carbohidratos == Num(Or(f.carbohidratos, 0.0) * v);
    assert Preview(f, Num(v), Porcion).proteinas == Num(Or(f.proteinas, 0.0) * v);
  }

  // ---------------------------------------------------------------------
  // Showing a logged quantity.

  /** Within `tol` of the nearest integer (`Math.round`). */
  predicate NearWhole(x: real, tol: real) {
    Abs(x - RoundHalfUp(x) as real) < tol
  }

  /** `n.toString()` for an integer. */
  function IntText(n: int): string {
    if n < 0 then "-" + NatToString(-n) else NatToString(n)
  }

  /** `${n} porción${n !== 1 ? 'es' : ''}`. */
  function PortionsText(n: int): (s: string)
    ensures |s| >= 2 && (s[|s| - 2..] == "es" <==> n != 1)
  {
    var s := IntText(n) + " porción" + (if n != 1 then "es" else "");
    assert n == 1 ==> s[|s| - 2..] == "ón";
    s
  }

  /** What `formatearCantidad` returns: the bare quantity, or a text. */
  datatype Quantity = RawQuantity(q: real) | QuantityText(s: string)

  /** `formatearCantidad(registro)`: for an unknown food the raw quantity;
      a whole number of portions when within 0.01 of one; otherwise the grams
      with one decimal. */
  function FormatearCantidad(e: Entry, alimentos: seq<Food>): (r: Quantity)
    ensures r.RawQuantity? <==> FoodById(alimentos, e.alimentoId as real).None?
    ensures r.RawQuantity? ==> r.q == e.cantidad
  {
    match FoodById(alimentos, e.alimentoId as real)
    case None => RawQuantity(e.cantidad)
    case Some(f) =>
      var porciones := e.cantidad / PortionWeight(f);
      if NearWhole(porciones, 0.01) then QuantityText(PortionsText(RoundHalfUp(porciones)))
      else QuantityText(ToFixed(e.cantidad, 1) + "g")
  }

  /** `|x - n| < tol` scaled by a positive `w`. */
  lemma ScaledDistance(x: real, n: real, w: real, tol: real)
    requires w > 0.0 && Abs(x / w - n) < tol
    ensures Abs(x - n * w) < tol * w
  {
    var q := x / w;
    assert x == q * w;
    assert x - n * w == (q - n) * w;
    if q - n >= 0.0 {
      assert (q - n) * w < tol * w;
    } else {
      assert (n - q) * w < tol * w;
    }
  }

  /** A quantity within a hundredth of a whole number of portions is shown
      as that number of portions. */
  lemma FormatearCantidadPortions(e: Entry, alimentos: seq<Food>, f: Food)
    requires FoodById(alimentos, e.alimentoId as real) == Some(f)
    requires NearWhole(e.cantidad / PortionWeight(f), 0.01)
    ensures FormatearCantidad(e, alimentos) == QuantityText(PortionsText(RoundHalfUp(e.cantidad / PortionWeight(f))))
  {
  }

  /** The number of portions shown lies within a hundredth of a portion of
      the logged grams. */
  lemma PortionsShownAreClose(cantidad: real, w: real)
    requires w > 0.0 && NearWhole(cantidad / w, 0.01)
    ensures Abs(cantidad - RoundHalfUp(cantidad / w) as real * w) < 0.01 * w
  {
    ScaledDistance(cantidad, RoundHalfUp(cantidad / w) as real, w, 0.01);
  }

  /** A quantity shown in grams reads back, without its `g`, as the grams
      rounded to one decimal. */
  lemma FormatearCantidadGrams(e: Entry, alimentos: seq<Food>, f: Food)
    requires FoodById(alimentos, e.alimentoId as real) == Some(f)
    requires !NearWhole(e.cantidad / PortionWeight(f), 0.01)
    ensures var r := FormatearCantidad(e, alimentos);
      r.QuantityText? && |r.s| >= 1 && r.s[|r.s| - 1] == 'g'
      && ParseFloat(r.s[..|r.s| - 1]) == Num(FixedValue(e.cantidad, 1))
  {
    var t := ToFixed(e.cantidad, 1);
    assert (t + "g")[..|t|] == t;
    ToFixedRoundTrip(e.cantidad, 1);
  }

  // ---------------------------------------------------------------------
  // Editing an entry.

  /** The edit form: the quantity text and its mode. */
  datatype EditForm = EditForm(cantidad: FieldText, modo: Mode)

  const BlankEdit := EditForm(Typed(""), Peso)

  /** The form `handleEditarRegistro` opens: whole portions when the entry is
      within 0.1 of a whole number of portions of a known food, otherwise the
      raw grams. */
  function EditStart(e: Entry, alimentos: seq<Food>): EditForm {
    match FoodById(alimentos, e.alimentoId as real)
    case None => EditForm(Rendered(e.cantidad), Peso)
    case Some(f) =>
      var porciones := e.cantidad / PortionWeight(f);
      if NearWhole(porciones, 0.1) then EditForm(Rendered(RoundHalfUp(porciones) as real), Porcion)
      else EditForm(Rendered(e.cantidad), Peso)
  }

  /** The grams `handleActualizarRegistro` sends: rejected (None) unless the
      quantity is a number above 0; portions are converted only when the food
      is known. */
  function UpdatedGrams(form: EditForm, food: Option<Food>): (g: Option<real>)
    ensures g.Some? ==> FieldValue(form.cantidad).Num? && FieldValue(form.cantidad).v > 0.0
    ensures g.None? <==> !FieldValue(form.cantidad).Num? || FieldValue(form.cantidad).v <= 0.0
  {
    var n := FieldValue(form.cantidad);
    if !n.Num? || n.v <= 0.0 then None
    else if food.Some? && form.modo == Porcion then Some(n.v * PortionWeight(food.value))
    else Some(n.v)
  }

  /** A valid quantity is converted as a logged candidate would be when the
      entry's food is known (portions times the portion weight, grams as
      they are), and is taken as grams whatever the mode when it is not. */
  lemma UpdatedGramsAccepted(form: EditForm, f: Food, v: real)
    requires FieldValue(form.cantidad) == Num(v) && v > 0.0
    ensures UpdatedGrams(form, Some(f)) == Some(Grams(Candidate(f.id, f, v, form.modo)))
    ensures UpdatedGrams(form, None) == Some(v)
  {
  }

  /** Saving an opened entry unchanged: in weight mode the same grams go
      back; in portion mode the grams snap to the nearest whole number of
      portions, at most a tenth of a portion away. */
  lemma EditUnchanged(e: Entry, alimentos: seq<Food>)
    requires e.cantidad > 0.0
    ensures var form := EditStart(e, alimentos);
      var g := UpdatedGrams(form, FoodById(alimentos, e.alimentoId as real));
      && (form.modo == Peso ==> g == Some(e.cantidad))
      && (form.modo == Porcion && g.Some? ==>
            var w := PortionWeight(FoodById(alimentos, e.alimentoId as real).value);
            w > 0.0 ==> Abs(g.value - e.cantidad) < 0.1 * w)
  {
    var food := FoodById(alimentos, e.alimentoId as real);
    var form := EditStart(e, alimentos);
    match food
    case None =>
      assert form == EditForm(Rendered(e.cantidad), Peso);
    case Some(f) =>
      var w := PortionWeight(f);
      var p := e.cantidad / w;
      if NearWhole(p, 0.1) {
        var n := RoundHalfUp(p);
        assert form == EditForm(Rendered(n as real), Porcion);
        if w > 0.0 {
          ScaledDistance(e.cantidad, n as real, w, 0.1);
        }
      } else {
        assert form == EditForm(Rendered(e.cantidad), Peso);
      }
  }

  /** A positive amount under `t` shares of `w` is under `t` shares. */
  lemma ShareBelow(c: real, w: real, t: real)
    requires w > 0.0 && 0.0 < c < t * w
    ensures 0.0 < c / w < t
  {
    var q := c / w;
    assert c == q * w;
    MulMono(t, q, w);
    MulMono(q, 0.0, w);
  }

  /** An entry of less than a tenth of a portion opens as "0" portions, and
      saving it unchanged is rejected. */
  lemma EditTinyEntryRejected(e: Entry, alimentos: seq<Food>, f: Food)
    requires FoodById(alimentos, e.alimentoId as real) == Some(f)
    requires 0.0 < e.cantidad < 0.1 * PortionWeight(f)
    ensures EditStart(e, alimentos) == EditForm(Rendered(0.0), Porcion)
    ensures UpdatedGrams(EditStart(e, alimentos), Some(f)).None?
  {
    var w := PortionWeight(f);
    var p := e.cantidad / w;
    ShareBelow(e.cantidad, w, 0.1);
    assert RoundHalfUp(p) == 0;
    assert NearWhole(p, 0.1);
    assert EditStart(e, alimentos) == EditForm(Rendered(RoundHalfUp(p) as real), Porcion);
  }

  /** `toFixed(d)` of a number, `"NaN"` for NaN. */
  function FixedText(x: JsNum, d: nat): string {
    match x
    case Num(v) => ToFixed(v, d)
    case Null => ToFixed(0.0, d)
    case NaN => "NaN"
  }

  /** `x / w` for a JavaScript number. */
  function Divide(x: JsNum, w: real): JsNum
    requires w != 0.0
  {
    match x
    case Num(v) => Num(v / w)
    case Null => Num(0.0)
    case NaN => NaN
  }

  /** Changing the mode in the editor: for a known food the text is converted
      (grams to portions with two decimals, portions to grams with one);
      otherwise only the mode changes. */
  function SwitchEditMode(form: EditForm, nuevo: Mode, food: Option<Food>): EditForm {
    match food
    case None => form.(modo := nuevo)
    case Some(f) =>
      var n := FieldValue(form.cantidad);
      if nuevo == Porcion && form.modo == Peso then EditForm(Typed(FixedText(Divide(n, PortionWeight(f)), 2)), nuevo)
      else if nuevo == Peso && form.modo == Porcion then EditForm(Typed(FixedText(Times(n, PortionWeight(f)), 1)), nuevo)
      else form.(modo := nuevo)
  }

  /** The editor's converted text reads back as the rounded number. */
  lemma FixedTextReadsBack(x: real, d: nat)
    ensures FieldValue(Typed(FixedText(Num(x), d))) == Num(FixedValue(x, d))
  {
    ToFixedRoundTrip(x, d);
  }

  /** Switching from grams to portions leaves a text that reads back as the
      portions rounded to hundredths. */
  lemma SwitchToPortions(form: EditForm, f: Food, v: real)
    requires FieldValue(form.cantidad) == Num(v) && form.modo == Peso
    ensures FieldValue(SwitchEditMode(form, Porcion, Some(f)).cantidad) == Num(FixedValue(v / PortionWeight(f), 2))
  {
    var x := v / PortionWeight(f);
    assert SwitchEditMode(form, Porcion, Some(f)) == EditForm(Typed(FixedText(Num(x), 2)), Porcion);
    FixedTextReadsBack(x, 2);
  }

  /** Switching from portions to grams leaves a text that reads back as the
      grams rounded to tenths. */
  lemma SwitchToGrams(form: EditForm, f: Food, v: real)
    requires FieldValue(form.cantidad) == Num(v) && form.modo == Porcion
    ensures FieldValue(SwitchEditMode(form, Peso, Some(f)).cantidad) == Num(FixedValue(v * PortionWeight(f), 1))
  {
    var x := v * PortionWeight(f);
    var n := FieldValue(form.cantidad);
    assert Times(n, PortionWeight(f)) == Num(x);
    assert SwitchEditMode(form, Peso, Some(f)) == EditForm(Typed(FixedText(Times(n, PortionWeight(f)), 1)), Peso);
    FixedTextReadsBack(x, 1);
  }

  /** Choosing the mode already selected changes nothing. */
  lemma SwitchToSameMode(form: EditForm, food: Option<Food>)
    ensures SwitchEditMode(form, form.modo, food) == form
  {
  }

  // ---------------------------------------------------------------------
  // The component's state.

  /** The add form: the selected food (see `SelectText`), the quantity
      text, the mode. */
  datatype AddForm = AddForm(alimentoId: Option<nat>, cantidad: string, modo: Mode)

  const BlankAdd := AddForm(None, "", Porcion)

  /** What submitting the add form for `slot` posts: nothing for an unknown
      food, otherwise the food's entry with the quantity in grams. */
  function SubmitRequest(alimentos: seq<Food>, form: AddForm, slot: MealSlot): (r: Option<Request>)
    ensures r.Some? <==> FoodBySelection(alimentos, form.alimentoId).Some?
    ensures r.Some? ==> r.value.PostRegistro? && r.value.tipoComida == SlotId(slot)
  {
    match FoodBySelection(alimentos, form.alimentoId)
    case None => None
    case Some(f) => Some(PostRegistro(SlotId(slot), f.id, GramsFor(f, ParseFloat(form.cantidad), form.modo)))
  }

  /** A known food in portion mode posts the typed portions times its
      portion weight, the same grams `Grams` gives for that candidate. */
  lemma SubmitPortions(alimentos: seq<Food>, form: AddForm, slot: MealSlot, f: Food, v: real)
    requires FoodBySelection(alimentos, form.alimentoId) == Some(f) && ParseFloat(form.cantidad) == Num(v)
    ensures SubmitRequest(alimentos, form, slot)
      == Some(PostRegistro(SlotId(slot), f.id, Num(Grams(Candidate(f.id, f, v, form.modo)))))
  {
    GramsForIsGrams(f, v, form.modo);
  }

  class DailyLog {
    var alimentos: seq<Food>
    var registros: seq<Entry>
    var showModal: bool
    var tipoComidaSeleccionado: Option<MealSlot>
    var formData: AddForm
    var showEditModal: bool
    var registroEditando: Option<Entry>
    var editForm: EditForm

    /** The add modal is open only for a chosen slot; the editor holds only
        entries with an id, and is shown only while it holds one. */
    predicate Valid()
      reads this
    {
      && (showModal ==> tipoComidaSeleccionado.Some?)
      && (registroEditando.Some? ==> registroEditando.value.id != 0)
      && (showEditModal ==> registroEditando.Some?)
    }

    constructor(alimentos: seq<Food>, registros: seq<Entry>)
      ensures Valid()
      ensures this.alimentos == alimentos && this.registros == registros
      ensures !showModal && tipoComidaSeleccionado.None? && formData == BlankAdd
      ensures !showEditModal && registroEditando.None? && editForm == BlankEdit
    {
      this.alimentos := alimentos;
      this.registros := registros;
      showModal := false;
      tipoComidaSeleccionado := None;
      formData := BlankAdd;
      showEditModal := false;
      registroEditando := None;
      editForm := BlankEdit;
    }

    /** `handleAgregarAlimento(tipoComida)`: opens a blank add form for a slot. */
    method HandleAgregarAlimento(slot: MealSlot)
      modifies this
      requires Valid()
      ensures Valid()
      ensures tipoComidaSeleccionado == Some(slot) && formData == BlankAdd && showModal
      ensures alimentos == old(alimentos) && registros == old(registros)
      ensures showEditModal == old(showEditModal) && registroEditando == old(registroEditando)
      ensures editForm == old(editForm)
    {
      tipoComidaSeleccionado := Some(slot);
      formData := BlankAdd;
      showModal := true;
    }

    /** Choosing the mode in the add form also clears the quantity. */
    method SetAddMode(modo: Mode)
      modifies this
      requires Valid()
      ensures Valid()
      ensures formData == old(formData).(modo := modo, cantidad := "")
      ensures showModal == old(showModal) && tipoComidaSeleccionado == old(tipoComidaSeleccionado)
      ensures alimentos == old(alimentos) && registros == old(registros)
      ensures showEditModal == old(showEditModal) && registroEditando == old(registroEditando)
      ensures editForm == old(editForm)
    {
      formData := formData.(modo := modo, cantidad := "");
    }

    /** Typing the quantity, or picking a food, in the add form. */
    method SetAddFields(alimentoId: Option<nat>, cantidad: string)
      modifies this
      requires Valid()
      ensures Valid()
      ensures formData == old(formData).(alimentoId := alimentoId, cantidad := cantidad)
      ensures showModal == old(showModal) && tipoComidaSeleccionado == old(tipoComidaSeleccionado)
      ensures alimentos == old(alimentos) && registros == old(registros)
      ensures showEditModal == old(showEditModal) && registroEditando == old(registroEditando)
      ensures editForm == old(editForm)
    {
      formData := formData.(alimentoId := alimentoId, cantidad := cantidad);
    }

    /** `handleSubmit`: an unknown food posts nothing; otherwise one entry is
      posted with the quantity in grams, and on success the form closes and
      is cleared. */
    method HandleSubmit(server: Server)
      modifies this, server
      requires Valid() && showModal
      ensures Valid()
      ensures var req := SubmitRequest(old(alimentos), old(formData), old(tipoComidaSeleccionado).value);
        && (req.None? ==>
              server.log == old(server.log) && server.outcomes == old(server.outcomes)
              && showModal && formData == old(formData))
        && (req.Some? ==>
              var ok := NextOk(old(server.outcomes));
              && server.outcomes == Drop(old(server.outcomes), 1)
              && server.log == old(server.log) + (if ok then [req.value] else [])
              && showModal == !ok && formData == (if ok then BlankAdd else old(formData)))
      ensures tipoComidaSeleccionado == old(tipoComidaSeleccionado)
      ensures alimentos == old(alimentos) && registros == old(registros)
      ensures showEditModal == old(showEditModal) && registroEditando == old(registroEditando)
      ensures editForm == old(editForm)
      ensures server.nextId == old(server.nextId) && server.webProducts == old(server.webProducts)
      ensures server.aiAlimentos == old(server.aiAlimentos) && server.aiMensaje == old(server.aiMensaje)
    {
      var alimento := FoodBySelection(alimentos, formData.alimentoId);
      if alimento.None? {
        return;
      }
      var cantidadFinal := GramsFor(alimento.value, ParseFloat(formData.cantidad), formData.modo);
      var request := PostRegistro(SlotId(tipoComidaSeleccionado.value), alimento.value.id, cantidadFinal);
      var ok := server.Send(request);
      if ok {
        showModal := false;
        formData := BlankAdd;
      }
    }

    /** `handleEditarRegistro(registro)`: an entry without an id is refused;
      otherwise the editor opens on it with the form `EditStart` gives. */
    method HandleEditarRegistro(e: Entry)
      modifies this
      requires Valid()
      ensures Valid()
      ensures e.id == 0 ==>
        registroEditando == old(registroEditando) && editForm == old(editForm) && showEditModal == old(showEditModal)
      ensures e.id != 0 ==>
        registroEditando == Some(e) && editForm == EditStart(e, alimentos) && showEditModal
      ensures alimentos == old(alimentos) && registros == old(registros)
      ensures showModal == old(showModal) && tipoComidaSeleccionado == old(tipoComidaSeleccionado)
      ensures formData == old(formData)
    {
      if e.id == 0 {
        return;
      }
      registroEditando := Some(e);
      var alimento := FoodById(alimentos, e.alimentoId as real);
      if alimento.Some? {
        var pesoPorcion := PortionWeight(alimento.value);
        var porciones := e.cantidad / pesoPorcion;
        if Abs(porciones - RoundHalfUp(porciones) as real) < 0.1 {
          editForm := EditForm(Rendered(RoundHalfUp(porciones) as real), Porcion);
        } else {
          editForm := EditForm(Rendered(e.cantidad), Peso);
        }
      } else {
        editForm := EditForm(Rendered(e.cantidad), Peso);
      }
      showEditModal := true;
    }

    /** Choosing a mode in the open editor. */
    method ChangeEditMode(nuevo: Mode)
      modifies this
      requires Valid() && showEditModal
      ensures Valid()
      ensures editForm == SwitchEditMode(old(editForm), nuevo, FoodById(old(alimentos), old(registroEditando).value.alimentoId as real))
      ensures alimentos == old(alimentos) && registros == old(registros)
      ensures showEditModal == old(showEditModal) && registroEditando == old(registroEditando)
      ensures showModal == old(showModal) && tipoComidaSeleccionado == old(tipoComidaSeleccionado)
      ensures formData == old(formData)
    {
      editForm := SwitchEditMode(editForm, nuevo, FoodById(alimentos, registroEditando.value.alimentoId as real));
    }

    /** Typing the quantity in the editor. */
    method SetEditCantidad(text: string)
      modifies this
      requires Valid()
      ensures Valid()
      ensures editForm == old(editForm).(cantidad := Typed(text))
      ensures alimentos == old(alimentos) && registros == old(registros)
      ensures showEditModal == old(showEditModal) && registroEditando == old(registroEditando)
      ensures showModal == old(showModal) && tipoComidaSeleccionado == old(tipoComidaSeleccionado)
      ensures formData == old(formData)
    {
      editForm := editForm.(cantidad := Typed(text));
    }

    /** The editor's "Cancelar": closes it and forgets the entry. */
    method CancelEdit()
      modifies this
      requires Valid()
      ensures Valid()
      ensures !showEditModal && registroEditando.None? && editForm == BlankEdit
      ensures alimentos == old(alimentos) && registros == old(registros)
      ensures showModal == old(showModal) && tipoComidaSeleccionado == old(tipoComidaSeleccionado)
      ensures formData == old(formData)
    {
      showEditModal := false;
      registroEditando := None;
      editForm := BlankEdit;
    }

    /** The editor's × button and its backdrop: the editor is hidden, but
        the entry and the form it was editing stay. */
    method CloseEdit()
      modifies this
      requires Valid()
      ensures Valid()
      ensures !showEditModal
      ensures registroEditando == old(registroEditando) && editForm == old(editForm)
      ensures alimentos == old(alimentos) && registros == old(registros)
      ensures showModal == old(showModal) && tipoComidaSeleccionado == old(tipoComidaSeleccionado)
      ensures formData == old(formData)
    {
      showEditModal := false;
    }

    /** `handleActualizarRegistro`: without an entry, or with a quantity that
      is not a number above 0, nothing is sent; otherwise the entry's new
      grams are put, and on success the editor closes and is cleared. */
    method HandleActualizarRegistro(server: Server)
      modifies this, server
      requires Valid()
      ensures Valid()
      ensures var g := if old(registroEditando).None? then None
                       else UpdatedGrams(old(editForm), FoodById(old(alimentos), old(registroEditando).value.alimentoId as real));
        && (g.None? ==>
              server.log == old(server.log) && server.outcomes == old(server.outcomes)
              && registroEditando == old(registroEditando) && editForm == old(editForm)
              && showEditModal == old(showEditModal))
        && (g.Some? ==>
              var ok := NextOk(old(server.outcomes));
              && server.outcomes == Drop(old(server.outcomes), 1)
              && server.log == old(server.log)
                 + (if ok then [PutRegistro(old(registroEditando).value.id, Num(g.value))] else [])
              && (ok ==> !showEditModal && registroEditando.None? && editForm == BlankEdit)
              && (!ok ==> showEditModal == old(showEditModal) && registroEditando == old(registroEditando)
                          && editForm == old(editForm)))
      ensures alimentos == old(alimentos) && registros == old(registros)
      ensures showModal == old(showModal) && tipoComidaSeleccionado == old(tipoComidaSeleccionado)
      ensures formData == old(formData)
      ensures server.nextId == old(server.nextId) && server.webProducts == old(server.webProducts)
      ensures server.aiAlimentos == old(server.aiAlimentos) && server.aiMensaje == old(server.aiMensaje)
    {
      if registroEditando.None? {
        return;
      }
      var registro := registroEditando.value;
      var cantidadFinal := UpdatedGrams(editForm, FoodById(alimentos, registro.alimentoId as real));
      if cantidadFinal.None? {
        return;
      }
      if registro.id == 0 {
        return;
      }
      var ok := server.Send(PutRegistro(registro.id, Num(cantidadFinal.value)));
      if ok {
        showEditModal := false;
        registroEditando := None;
        editForm := BlankEdit;
      }
    }
  }
}
