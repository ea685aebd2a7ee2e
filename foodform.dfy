/** The food form shared by the food catalog and the meal templates: what a
    change event stores in a field, and how the stored values become the
    body of the request that creates or updates a food. */
module FoodForms {
  import opened Js
  import opened Numbers
  import opened Domain
  import opened Backend

  /** A numeric field of the form: `''`, or the value stored in it. A value
      is normally a `parseFloat` result; one loaded from a food may also be
      `null`. */
  datatype FormNum = Blank | Value(x: JsNum)

  /** The inputs of the food form, by their `name`. */
  datatype Field = Nombre | Calorias | Grasas | Carbohidratos | Proteinas | Sodio | PesoPorcion

  datatype FoodForm = FoodForm(nombre: string, calorias: FormNum, grasas: FormNum,
                               carbohidratos: FormNum, proteinas: FormNum, sodio: FormNum,
                               pesoPorcion: FormNum)

  /** The empty form: blank nutrients and a 100 g portion. */
  const BlankFoodForm := FoodForm("", Blank, Blank, Blank, Blank, Blank, Value(Num(100.0)))

  /** What a change event stores in a numeric field: `''` stays `''`,
      anything else goes through `parseFloat`. */
  function Stored(value: string): (v: FormNum)
    ensures v.Blank? <==> value == ""
    ensures v.Value? ==> v.x != Null
  {
    if value == "" then Blank else Value(ParseFloat(value))
  }

  /** The stored value of a numeric field. */
  function NumberField(form: FoodForm, name: Field): FormNum
    requires name != Nombre
  {
    match name
    case Calorias => form.calorias
    case Grasas => form.grasas
    case Carbohidratos => form.carbohidratos
    case Proteinas => form.proteinas
    case Sodio => form.sodio
    case PesoPorcion => form.pesoPorcion
  }

  /** The form after a change event on input `name` (`setFormData(prev => ({...prev, [name]: …}))`). */
  function WithField(form: FoodForm, name: Field, value: string): FoodForm {
    match name
    case Nombre => form.(nombre := value)
    case Calorias => form.(calorias := Stored(value))
    case Grasas => form.(grasas := Stored(value))
    case Carbohidratos => form.(carbohidratos := Stored(value))
    case Proteinas => form.(proteinas := Stored(value))
    case Sodio => form.(sodio := Stored(value))
    case PesoPorcion => form.(pesoPorcion := Stored(value))
  }

  /** A change event sets the input it came from, keeps `nombre` as typed and
      every other input as it was. */
  lemma WithFieldChangesOnlyThatField(form: FoodForm, name: Field, value: string)
    ensures name == Nombre ==> WithField(form, name, value).nombre == value
    ensures name != Nombre ==> WithField(form, name, value).nombre == form.nombre
    ensures forall g :: g != Nombre ==>
      NumberField(WithField(form, name, value), g) == if g == name then Stored(value) else NumberField(form, g)
  {
  }

  /** `v === '' || isNaN(v) ? d : parseFloat(v)`. `isNaN(null)` is false and
      `parseFloat(null)` is NaN, so a `null` value comes out as NaN. */
  function Normalized(v: FormNum, d: real): JsNum {
    match v
    case Blank => Num(d)
    case Value(Num(x)) => Num(x)
    case Value(NaN) => Num(d)
    case Value(Null) => NaN
  }

  /** Normalising yields a number for every stored value except `null`: a
      blank or NaN field takes the default, a number is kept. */
  lemma NormalizedCases(v: FormNum, d: real)
    ensures Normalized(v, d) == NaN <==> v == Value(Null)
    ensures v.Blank? || v == Value(NaN) ==> Normalized(v, d) == Num(d)
    ensures v.Value? && v.x.Num? ==> Normalized(v, d) == v.x
  {
  }

  /** The body sent for the form: missing nutrients become 0, a missing
      portion weight 100, and the name goes as typed. */
  function FoodBody(form: FoodForm): FoodData {
    FoodData(form.nombre, Normalized(form.calorias, 0.0), Normalized(form.grasas, 0.0),
             Normalized(form.carbohidratos, 0.0), Normalized(form.proteinas, 0.0),
             Normalized(form.sodio, 0.0), Normalized(form.pesoPorcion, 100.0))
  }

  /** What is typed into a numeric input is what is sent: its `parseFloat`
      when that is a number (0 included), and otherwise the default. */
  lemma TypedValueSent(value: string, d: real)
    ensures ParseFloat(value).Num? ==> Normalized(Stored(value), d) == ParseFloat(value)
    ensures !ParseFloat(value).Num? ==> Normalized(Stored(value), d) == Num(d)
  {
    if value == "" {
      assert ParseFloat(value) == NaN;
    }
  }

  /** No field holds `null`. */
  predicate NoNullField(form: FoodForm) {
    form.calorias != Value(Null) && form.grasas != Value(Null) && form.carbohidratos != Value(Null)
    && form.proteinas != Value(Null) && form.sodio != Value(Null) && form.pesoPorcion != Value(Null)
  }

  /** The blank form and typing keep every field free of `null`. */
  lemma TypingKeepsNoNullField(form: FoodForm, name: Field, value: string)
    ensures NoNullField(BlankFoodForm)
    ensures NoNullField(form) ==> NoNullField(WithField(form, name, value))
  {
  }

  /** A form without `null` fields sends a number for every nutrient. */
  lemma NoNullFieldSendsNumbers(form: FoodForm)
    requires NoNullField(form)
    ensures var b := FoodBody(form);
      b.calorias.Num? && b.grasas.Num? && b.carbohidratos.Num? && b.proteinas.Num?
      && b.sodio.Num? && b.pesoPorcion.Num?
  {
    NormalizedCases(form.calorias, 0.0);
    NormalizedCases(form.grasas, 0.0);
    NormalizedCases(form.carbohidratos, 0.0);
    NormalizedCases(form.proteinas, 0.0);
    NormalizedCases(form.sodio, 0.0);
    NormalizedCases(form.pesoPorcion, 100.0);
  }

  /** Submitting the untouched blank form creates a food of zeros with a
      100 g portion. */
  lemma BlankFormBody()
    ensures FoodBody(BlankFoodForm) == FoodData("", Num(0.0), Num(0.0), Num(0.0), Num(0.0), Num(0.0), Num(100.0))
  {
  }
}
