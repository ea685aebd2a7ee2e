/** The food catalog screen (`AlimentosManager`): the create/edit form and
    the request it sends. */
module Alimentos {
  import opened Js
  import opened Domain
  import opened Backend
  import opened FoodForms

  /** `x || ''`: a falsy value (missing, NaN or 0) opens as a blank input. */
  function Blankable(x: JsNum): (v: FormNum)
    ensures v.Blank? <==> !Truthy(x)
  {
    if Truthy(x) then Value(x) else Blank
  }

  /** The form a food opens in for editing: the name and calories as they
      are, the other nutrients blank when falsy, the portion weight 100 when
      falsy. */
  function EditFormOf(a: Food): FoodForm {
    FoodForm(a.nombre, Value(a.calorias), Blankable(a.grasas), Blankable(a.carbohidratos),
             Blankable(a.proteinas), Blankable(a.sodio), Value(Num(Or(a.pesoPorcion, 100.0))))
  }

  /** Saving a food opened for editing without touching the form: missing
      optional nutrients are sent as 0 and a falsy portion weight as 100;
      missing calories come out as NaN, since they are loaded as `null`. */
  lemma EditThenSave(a: Food)
    ensures var b := FoodBody(EditFormOf(a));
      && b.nombre == a.nombre
      && b.grasas == Num(Or(a.grasas, 0.0)) && b.carbohidratos == Num(Or(a.carbohidratos, 0.0))
      && b.proteinas == Num(Or(a.proteinas, 0.0)) && b.sodio == Num(Or(a.sodio, 0.0))
      && b.pesoPorcion == Num(Or(a.pesoPorcion, 100.0))
      && b.calorias == (if a.calorias == Null then NaN else Num(Or(a.calorias, 0.0)))
  {
  }

  /** The body a food had. */
  function DataOf(a: Food): FoodData {
    FoodData(a.nombre, a.calorias, a.grasas, a.carbohidratos, a.proteinas, a.sodio, a.pesoPorcion)
  }

  /** A food whose values are all numbers and whose portion weight is set
      comes back unchanged from an edit that changes nothing. */
  lemma EditThenSaveKeepsFood(a: Food)
    requires a.calorias.Num? && a.grasas.Num? && a.carbohidratos.Num? && a.proteinas.Num? && a.sodio.Num?
    requires Truthy(a.pesoPorcion)
    ensures FoodBody(EditFormOf(a)) == DataOf(a)
  {
    EditThenSave(a);
  }

  /** The request a submit sends: an update of the food being edited, or a
      new food. */
  function SaveRequest(editing: Option<Food>, form: FoodForm): (r: Request)
    ensures r.PutAlimento? <==> editing.Some?
    ensures r.PutAlimento? ==> r.alimentoId == editing.value.id
    ensures r.PutAlimento? || r.PostAlimento?
    ensures r.data == FoodBody(form)
  {
    match editing
    case Some(a) => PutAlimento(a.id, FoodBody(form))
    case None => PostAlimento(FoodBody(form))
  }

  class FoodsManager {
    var showModal: bool
    var editingAlimento: Option<Food>
    var formData: FoodForm

    constructor()
      ensures !showModal && editingAlimento.None? && formData == BlankFoodForm
    {
      showModal := false;
      editingAlimento := None;
      formData := BlankFoodForm;
    }

    /** `handleInputChange`: one input changes, the rest of the form stays. */
    method HandleInputChange(name: Field, value: string)
      modifies this
      ensures formData == WithField(old(formData), name, value)
      ensures showModal == old(showModal) && editingAlimento == old(editingAlimento)
    {
      formData := WithField(formData, name, value);
    }

    /** `resetForm`: a blank form and no food being edited. */
    method ResetForm()
      modifies this
      ensures formData == BlankFoodForm && editingAlimento.None?
      ensures showModal == old(showModal)
    {
      formData := BlankFoodForm;
      editingAlimento := None;
    }

    /** The "add food" button: a blank form in an open dialog. */
    method OpenNew()
      modifies this
      ensures formData == BlankFoodForm && editingAlimento.None? && showModal
    {
      ResetForm();
      showModal := true;
    }

    /** `handleEdit`: the food becomes the edit target and fills the form. */
    method HandleEdit(a: Food)
      modifies this
      ensures editingAlimento == Some(a) && formData == EditFormOf(a) && showModal
    {
      editingAlimento := Some(a);
      formData := EditFormOf(a);
      showModal := true;
    }

    /** `handleSubmit`: sends the normalised form as an update or a creation;
        on success the form is reset and the dialog closed, on failure
        nothing changes. */
    method HandleSubmit(server: Server) returns (ok: bool)
      modifies this, server
      ensures server.webProducts == old(server.webProducts)
      ensures server.aiAlimentos == old(server.aiAlimentos) && server.aiMensaje == old(server.aiMensaje)
      ensures ok == NextOk(old(server.outcomes)) && server.outcomes == Drop(old(server.outcomes), 1)
      ensures server.log == old(server.log) + (if ok then [SaveRequest(old(editingAlimento), old(formData))] else [])
      ensures ok ==> formData == BlankFoodForm && editingAlimento.None? && !showModal
      ensures !ok ==> formData == old(formData) && editingAlimento == old(editingAlimento) && showModal == old(showModal)
      ensures server.nextId == old(server.nextId)
    {
      var request := SaveRequest(editingAlimento, formData);
      ok := server.Send(request);
      if !ok {
        return;
      }
      ResetForm();
      showModal := false;
    }
  }

  /** Opening a fully filled-in food for editing and saving it at once sends
      an update of that food with the values it had. */
  method EditAndSave(m: FoodsManager, server: Server, a: Food) returns (ok: bool)
    modifies m, server
    requires a.calorias.Num? && a.grasas.Num? && a.carbohidratos.Num? && a.proteinas.Num? && a.sodio.Num?
    requires Truthy(a.pesoPorcion)
    ensures ok ==> server.log == old(server.log) + [PutAlimento(a.id, DataOf(a))]
    ensures !ok ==> server.log == old(server.log) && m.editingAlimento == Some(a)
  {
    m.HandleEdit(a);
    EditThenSaveKeepsFood(a);
    ok := m.HandleSubmit(server);
  }
}
