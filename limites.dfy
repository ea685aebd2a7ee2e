/** The daily-limits form (`LimitesConfig`): defaults for unset limits, the
    field change rule and the save. */
module Limites {
  import opened Js
  import opened Numbers
  import opened Domain
  import opened Backend

  /** The four limits as the form holds them. */
  datatype LimitValues = LimitValues(calorias: real, grasas: real, carbohidratos: real, proteinas: real)

  /** The limits used when none is set: 2000 kcal, 65 g fat, 300 g
      carbohydrates, 150 g protein. */
  const Defaults := LimitValues(2000.0, 65.0, 300.0, 150.0)

  /** `limites.limite_x || default` for each limit. */
  function WithDefaults(l: Limits): (r: LimitValues)
    ensures r.calorias != 0.0 && r.grasas != 0.0 && r.carbohidratos != 0.0 && r.proteinas != 0.0
  {
    LimitValues(Or(l.calorias, Defaults.calorias), Or(l.grasas, Defaults.grasas),
                Or(l.carbohidratos, Defaults.carbohidratos), Or(l.proteinas, Defaults.proteinas))
  }

  /** The limits as the parent would pass them back after a save. */
  function AsLimits(v: LimitValues): Limits {
    Limits(Num(v.calorias), Num(v.grasas), Num(v.carbohidratos), Num(v.proteinas))
  }

  /** A set limit is kept and an unset one (missing, NaN or 0) takes its
      default; so defaulting twice changes nothing. */
  lemma WithDefaultsCases(l: Limits)
    ensures Truthy(l.calorias) ==> WithDefaults(l).calorias == l.calorias.v
    ensures !Truthy(l.calorias) ==> WithDefaults(l).calorias == 2000.0
    ensures Truthy(l.grasas) ==> WithDefaults(l).grasas == l.grasas.v
    ensures !Truthy(l.grasas) ==> WithDefaults(l).grasas == 65.0
    ensures Truthy(l.carbohidratos) ==> WithDefaults(l).carbohidratos == l.carbohidratos.v
    ensures !Truthy(l.carbohidratos) ==> WithDefaults(l).carbohidratos == 300.0
    ensures Truthy(l.proteinas) ==> WithDefaults(l).proteinas == l.proteinas.v
    ensures !Truthy(l.proteinas) ==> WithDefaults(l).proteinas == 150.0
    ensures WithDefaults(AsLimits(WithDefaults(l))) == WithDefaults(l)
  {
  }

  /** The inputs of the form. */
  datatype LimitField = LimiteCalorias | LimiteGrasas | LimiteCarbohidratos | LimiteProteinas

  /** What a change event stores: `parseFloat(value) || 0`. */
  function Entered(value: string): (r: real)
    ensures r != 0.0 ==> ParseFloat(value) == Num(r)
    ensures !ParseFloat(value).Num? ==> r == 0.0
  {
    Or(ParseFloat(value), 0.0)
  }

  /** A whole number typed in is stored as itself; an empty input is stored
      as 0. */
  lemma EnteredReadsBack(n: nat)
    ensures Entered(NatToString(n)) == n as real
    ensures Entered("") == 0.0
  {
    NatToStringRoundTrip(n);
    assert ParseFloat("") == NaN;
  }

  function WithLimit(v: LimitValues, name: LimitField, x: real): LimitValues {
    match name
    case LimiteCalorias => v.(calorias := x)
    case LimiteGrasas => v.(grasas := x)
    case LimiteCarbohidratos => v.(carbohidratos := x)
    case LimiteProteinas => v.(proteinas := x)
  }

  /** The form; `updates` counts the calls to `onUpdate`. */
  class LimitsForm {
    var formData: LimitValues
    var updates: nat

    constructor(limites: Limits)
      ensures formData == WithDefaults(limites) && updates == 0
    {
      formData := WithDefaults(limites);
      updates := 0;
    }

    /** The effect on a new `limites` prop: the same defaulting again. */
    method Sync(limites: Limits)
      modifies this
      ensures formData == WithDefaults(limites) && updates == old(updates)
    {
      formData := WithDefaults(limites);
    }

    /** `handleInputChange`: the input's field takes `parseFloat(value) || 0`,
        the others stay. */
    method HandleInputChange(name: LimitField, value: string)
      modifies this
      ensures formData == WithLimit(old(formData), name, Entered(value))
      ensures updates == old(updates)
    {
      formData := WithLimit(formData, name, Entered(value));
    }

    /** `handleSubmit`: sends the whole form; `onUpdate` runs only after the
        server accepted it. */
    method HandleSubmit(server: Server) returns (ok: bool)
      modifies this, server
      ensures server.webProducts == old(server.webProducts)
      ensures server.aiAlimentos == old(server.aiAlimentos) && server.aiMensaje == old(server.aiMensaje)
      ensures ok == NextOk(old(server.outcomes)) && server.outcomes == Drop(old(server.outcomes), 1)
      ensures server.log == old(server.log)
        + (if ok then [PutLimites(formData.calorias, formData.grasas, formData.carbohidratos, formData.proteinas)] else [])
      ensures updates == old(updates) + (if ok then 1 else 0)
      ensures formData == old(formData) && server.nextId == old(server.nextId)
    {
      ok := server.Send(PutLimites(formData.calorias, formData.grasas, formData.carbohidratos, formData.proteinas));
      if ok {
        updates := updates + 1;
      }
    }
  }

  /** Saving the form and receiving the saved limits back leaves the form as
      it was, as long as no limit was set to 0. */
  method SaveThenSync(form: LimitsForm, server: Server) returns (ok: bool)
    modifies form, server
    requires form.formData.calorias != 0.0 && form.formData.grasas != 0.0
    requires form.formData.carbohidratos != 0.0 && form.formData.proteinas != 0.0
    ensures form.formData == old(form.formData)
    ensures server.log == old(server.log)
      + (if ok then [PutLimites(form.formData.calorias, form.formData.grasas, form.formData.carbohidratos, form.formData.proteinas)] else [])
  {
    ok := form.HandleSubmit(server);
    var saved := form.formData;
    form.Sync(AsLimits(saved));
  }
}
