/** The meal-template screen (`ComidasManager`): creating and editing a
    template, adding foods to it, creating a food on the way, and the
    template's detail view. */
module Comidas {
  import opened Js
  import opened Numbers
  import opened Format
  import opened Domain
  import opened Backend
  import opened FoodForms
  import opened Buscador

  /** A template as the list returns it; `descripcion` may be missing. */
  datatype MealRecord = MealRecord(id: nat, nombre: string, descripcion: Option<string>)

  /** The template form. */
  datatype MealForm = MealForm(nombre: string, descripcion: string)

  const BlankMealForm := MealForm("", "")

  /** The inputs of the template form. */
  datatype MealField = NombreComida | Descripcion

  /** The form for adding a food to a template: the food as the search box
      reports it (the id as text, `""` for none), the quantity as typed, and
      the mode. */
  datatype LineForm = LineForm(alimentoId: string, cantidad: string, modo: Mode)

  const BlankLineForm := LineForm("", "", Porcion)

  /** A change event on the add-food form. */
  datatype LineChange = AlimentoIdChange(id: string) | CantidadChange(cantidad: string) | ModoChange(modo: Mode)

  /** `comida.descripcion || ''`. */
  function DescripcionText(d: Option<string>): string {
    match d
    case None => ""
    case Some(s) => s
  }

  /** The form a template opens in for editing. */
  function EditFormOf(c: MealRecord): (f: MealForm)
    ensures f.nombre == c.nombre
    ensures c.descripcion.Some? ==> f.descripcion == c.descripcion.value
    ensures c.descripcion.None? ==> f.descripcion == ""
  {
    MealForm(c.nombre, DescripcionText(c.descripcion))
  }

  function WithMealField(form: MealForm, name: MealField, value: string): MealForm {
    match name
    case NombreComida => form.(nombre := value)
    case Descripcion => form.(descripcion := value)
  }

  function WithLineChange(form: LineForm, change: LineChange): LineForm {
    match change
    case AlimentoIdChange(id) => form.(alimentoId := id)
    case CantidadChange(c) => form.(cantidad := c)
    case ModoChange(m) => form.(modo := m)
  }

  /** The request adding a food to template `comidaId`: none unless the
      quantity parses to a positive number; the quantity and mode are sent
      as entered, with no conversion to grams. */
  function LineRequest(comidaId: nat, form: LineForm): (r: Option<Request>)
    ensures r.Some? <==> ParseFloat(form.cantidad).Num? && ParseFloat(form.cantidad).v > 0.0
    ensures r.Some? ==> r.value == PostLinea(comidaId, ParseInt(form.alimentoId), ParseFloat(form.cantidad).v, form.modo)
  {
    var cantidadNum := ParseFloat(form.cantidad);
    if cantidadNum.NaN? || cantidadNum.Null? || cantidadNum.v <= 0.0 then None
    else Some(PostLinea(comidaId, ParseInt(form.alimentoId), cantidadNum.v, form.modo))
  }

  /** A food picked in the search box and a whole positive quantity are
      posted as exactly that food, that quantity and that mode. */
  lemma PickedLinePosted(comidaId: nat, id: nat, n: nat, modo: Mode)
    requires n > 0
    ensures LineRequest(comidaId, LineForm(SelectText(Some(id)), NatToString(n), modo))
      == Some(PostLinea(comidaId, Num(id as real), n as real, modo))
  {
    NatToStringRoundTrip(id);
    NatToStringRoundTrip(n);
  }

  /** With no food picked, a valid quantity still posts, with a NaN food id. */
  lemma UnpickedLinePostsNaN(comidaId: nat, cantidad: string, modo: Mode)
    ensures var r := LineRequest(comidaId, LineForm(SelectText(None), cantidad, modo));
      r.Some? ==> r.value.lineaAlimento == NaN
  {
    assert ParseInt("") == NaN;
  }

  /** An empty quantity is rejected. */
  lemma EmptyQuantityRejected(comidaId: nat, form: LineForm)
    requires form.cantidad == ""
    ensures LineRequest(comidaId, form).None?
  {
    assert ParseFloat(form.cantidad) == NaN;
  }

  /** A total of the detail view: `formatNutrient(total || 0)`. */
  function TotalText(total: JsNum): string {
    FormatNutrient(Num(Or(total, 0.0)))
  }

  /** A missing or zero total shows `"0.0"` (where `formatNutrient` alone
      would write `"0"` for a missing value); a set total shows as
      `formatNutrient` writes it. */
  lemma TotalTextCases(total: JsNum)
    ensures !Truthy(total) ==> TotalText(total) == "0.0"
    ensures Truthy(total) ==> TotalText(total) == FormatNutrient(total)
    ensures FormatNutrient(Null) == "0"
  {
    if !Truthy(total) {
      ExampleText(0.0, 0, "0.0");
    }
  }

  /** The unit written after a line's quantity in the detail view. */
  function LineUnit(modo: Mode): string {
    match modo
    case Porcion => " porción(es)"
    case Peso => " g"
  }

  /** A line's text, given the text of its quantity. */
  function LineText(cantidadText: string, modo: Mode): (s: string)
    ensures cantidadText <= s
  {
    cantidadText + LineUnit(modo)
  }

  /** A line's text tells its mode: it ends in `g` exactly for weight lines,
      so two lines of the same quantity read the same only in the same mode. */
  lemma LineTextShowsMode(cantidadText: string, modo: Mode, other: Mode)
    ensures var s := LineText(cantidadText, modo); s[|s| - 1] == 'g' <==> modo == Peso
    ensures LineText(cantidadText, modo) == LineText(cantidadText, other) ==> modo == other
  {
    var s := LineText(cantidadText, modo);
    assert s[|s| - 1] == LineUnit(modo)[|LineUnit(modo)| - 1];
    if LineText(cantidadText, modo) == LineText(cantidadText, other) {
      var t := LineText(cantidadText, other);
      assert t[|t| - 1] == LineUnit(other)[|LineUnit(other)| - 1];
    }
  }

  class MealsManager {
    var showModal: bool
    var showDetalleModal: bool
    var showAlimentoModal: bool
    var editingComida: Option<MealRecord>
    /** The id of the template whose detail was last loaded (the detail
        itself is server data). */
    var comidaDetalle: Option<nat>
    var formData: MealForm
    var alimentoForm: LineForm
    var nuevoAlimentoForm: FoodForm

    constructor()
      ensures !showModal && !showDetalleModal && !showAlimentoModal
      ensures editingComida.None? && comidaDetalle.None?
      ensures formData == BlankMealForm && alimentoForm == BlankLineForm && nuevoAlimentoForm == BlankFoodForm
    {
      showModal := false;
      showDetalleModal := false;
      showAlimentoModal := false;
      editingComida := None;
      comidaDetalle := None;
      formData := BlankMealForm;
      alimentoForm := BlankLineForm;
      nuevoAlimentoForm := BlankFoodForm;
    }

    /** `handleInputChange` on the template form. */
    method HandleInputChange(name: MealField, value: string)
      modifies this
      ensures formData == WithMealField(old(formData), name, value)
      ensures editingComida == old(editingComida) && alimentoForm == old(alimentoForm)
      ensures nuevoAlimentoForm == old(nuevoAlimentoForm) && comidaDetalle == old(comidaDetalle)
      ensures showModal == old(showModal) && showDetalleModal == old(showDetalleModal)
      ensures showAlimentoModal == old(showAlimentoModal)
    {
      formData := WithMealField(formData, name, value);
    }

    /** `handleAlimentoInputChange`, also what the search box reports. */
    method HandleAlimentoInputChange(change: LineChange)
      modifies this
      ensures alimentoForm == WithLineChange(old(alimentoForm), change)
      ensures formData == old(formData) && editingComida == old(editingComida)
      ensures nuevoAlimentoForm == old(nuevoAlimentoForm) && comidaDetalle == old(comidaDetalle)
      ensures showModal == old(showModal) && showDetalleModal == old(showDetalleModal)
      ensures showAlimentoModal == old(showAlimentoModal)
    {
      alimentoForm := WithLineChange(alimentoForm, change);
    }

    /** `handleNuevoAlimentoInputChange`: the food form's change rule. */
    method HandleNuevoAlimentoInputChange(name: Field, value: string)
      modifies this
      ensures nuevoAlimentoForm == WithField(old(nuevoAlimentoForm), name, value)
      ensures formData == old(formData) && editingComida == old(editingComida)
      ensures alimentoForm == old(alimentoForm) && comidaDetalle == old(comidaDetalle)
      ensures showModal == old(showModal) && showDetalleModal == old(showDetalleModal)
      ensures showAlimentoModal == old(showAlimentoModal)
    {
      nuevoAlimentoForm := WithField(nuevoAlimentoForm, name, value);
    }

    /** `resetForm`: a blank template form and no template being edited. */
    method ResetForm()
      modifies this
      ensures formData == BlankMealForm && editingComida.None?
      ensures alimentoForm == old(alimentoForm) && nuevoAlimentoForm == old(nuevoAlimentoForm)
      ensures comidaDetalle == old(comidaDetalle)
      ensures showModal == old(showModal) && showDetalleModal == old(showDetalleModal)
      ensures showAlimentoModal == old(showAlimentoModal)
    {
      formData := BlankMealForm;
      editingComida := None;
    }

    /** The "create template" button: a blank form in an open dialog. */
    method OpenNew()
      modifies this
      ensures formData == BlankMealForm && editingComida.None? && showModal
      ensures alimentoForm == old(alimentoForm) && nuevoAlimentoForm == old(nuevoAlimentoForm)
      ensures comidaDetalle == old(comidaDetalle) && showDetalleModal == old(showDetalleModal)
      ensures showAlimentoModal == old(showAlimentoModal)
    {
      ResetForm();
      showModal := true;
    }

    /** `handleEdit`: the template fills the form, the detail closes and the
        form opens. */
    method HandleEdit(c: MealRecord)
      modifies this
      ensures editingComida == Some(c) && formData == EditFormOf(c)
      ensures !showDetalleModal && showModal
      ensures alimentoForm == old(alimentoForm) && nuevoAlimentoForm == old(nuevoAlimentoForm)
      ensures comidaDetalle == old(comidaDetalle) && showAlimentoModal == old(showAlimentoModal)
    {
      editingComida := Some(c);
      formData := EditFormOf(c);
      showDetalleModal := false;
      showModal := true;
    }

    /** `fetchComidaDetalle`: loads a template's detail and shows it; a
        failed load changes nothing. */
    method FetchComidaDetalle(server: Server, id: nat) returns (ok: bool)
      modifies this, server
      ensures server.webProducts == old(server.webProducts)
      ensures server.aiAlimentos == old(server.aiAlimentos) && server.aiMensaje == old(server.aiMensaje)
      ensures ok == NextOk(old(server.outcomes)) && server.outcomes == Drop(old(server.outcomes), 1)
      ensures server.log == old(server.log) + (if ok then [GetComida(id)] else [])
      ensures server.nextId == old(server.nextId)
      ensures ok ==> comidaDetalle == Some(id) && showDetalleModal
      ensures !ok ==> comidaDetalle == old(comidaDetalle) && showDetalleModal == old(showDetalleModal)
      ensures formData == old(formData) && editingComida == old(editingComida)
      ensures alimentoForm == old(alimentoForm) && nuevoAlimentoForm == old(nuevoAlimentoForm)
      ensures showModal == old(showModal) && showAlimentoModal == old(showAlimentoModal)
    {
      ok := server.Send(GetComida(id));
      if ok {
        comidaDetalle := Some(id);
        showDetalleModal := true;
      }
    }

    /** `handleSubmit`: an edited template is updated under its own id, a
        new one is created and takes the id the server returns. On success
        the form is reset and closed, and only a new template with a
        non-zero id has its detail loaded; on failure nothing changes. */
    method HandleSubmit(server: Server) returns (ok: bool)
      modifies this, server
      ensures server.nextId == old(server.nextId) + (if ok && old(editingComida).None? then 1 else 0)
      ensures server.webProducts == old(server.webProducts)
      ensures server.aiAlimentos == old(server.aiAlimentos) && server.aiMensaje == old(server.aiMensaje)
      ensures ok == NextOk(old(server.outcomes))
      ensures !ok ==> (server.log == old(server.log) && server.outcomes == Drop(old(server.outcomes), 1)
        && formData == old(formData) && editingComida == old(editingComida) && showModal == old(showModal)
        && comidaDetalle == old(comidaDetalle) && showDetalleModal == old(showDetalleModal))
      ensures ok ==> formData == BlankMealForm && editingComida.None? && !showModal
      ensures ok && old(editingComida).Some? ==>
        server.log == old(server.log) + [PutComida(old(editingComida).value.id, old(formData).nombre, old(formData).descripcion)]
        && server.outcomes == Drop(old(server.outcomes), 1)
        && comidaDetalle == old(comidaDetalle) && showDetalleModal == old(showDetalleModal)
      ensures ok && old(editingComida).None? && old(server.nextId) == 0 ==>
        server.log == old(server.log) + [PostComida(old(formData).nombre, old(formData).descripcion)]
        && server.outcomes == Drop(old(server.outcomes), 1)
        && comidaDetalle == old(comidaDetalle) && showDetalleModal == old(showDetalleModal)
      ensures ok && old(editingComida).None? && old(server.nextId) != 0 ==>
        var loaded := NextOk(Drop(old(server.outcomes), 1));
        server.log == old(server.log) + [PostComida(old(formData).nombre, old(formData).descripcion)]
          + (if loaded then [GetComida(old(server.nextId))] else [])
        && server.outcomes == Drop(Drop(old(server.outcomes), 1), 1)
        && comidaDetalle == (if loaded then Some(old(server.nextId)) else old(comidaDetalle))
        && showDetalleModal == (old(showDetalleModal) || loaded)
      ensures alimentoForm == old(alimentoForm) && nuevoAlimentoForm == old(nuevoAlimentoForm)
      ensures showAlimentoModal == old(showAlimentoModal)
    {
      var wasNew := editingComida.None?;
      var comidaId: nat;
      if editingComida.Some? {
        comidaId := editingComida.value.id;
        ok := server.Send(PutComida(comidaId, formData.nombre, formData.descripcion));
      } else {
        var created := server.Create(PostComida(formData.nombre, formData.descripcion));
        ok := created.Some?;
        comidaId := if ok then created.value else 0;
      }
      if !ok {
        return;
      }
      ResetForm();
      showModal := false;
      if wasNew && comidaId != 0 {
        var loaded := FetchComidaDetalle(server, comidaId);
      }
    }

    /** `handleAgregarAlimento`: with no detail open nothing happens; a
        quantity that is not a positive number is rejected with no request;
        otherwise the line is posted and, on success, the detail reloaded
        and the add-food form cleared. */
    method HandleAgregarAlimento(server: Server) returns (ok: bool)
      modifies this, server
      ensures server.webProducts == old(server.webProducts)
      ensures server.aiAlimentos == old(server.aiAlimentos) && server.aiMensaje == old(server.aiMensaje)
      ensures old(comidaDetalle).None? || LineRequest(old(comidaDetalle).value, old(alimentoForm)).None? ==>
        !ok && server.log == old(server.log) && server.outcomes == old(server.outcomes)
        && alimentoForm == old(alimentoForm) && showDetalleModal == old(showDetalleModal)
      ensures ok <==> (old(comidaDetalle).Some? && LineRequest(old(comidaDetalle).value, old(alimentoForm)).Some?
        && NextOk(old(server.outcomes)))
      ensures old(comidaDetalle).Some? && LineRequest(old(comidaDetalle).value, old(alimentoForm)).Some? && !ok ==>
        server.log == old(server.log) && server.outcomes == Drop(old(server.outcomes), 1)
        && alimentoForm == old(alimentoForm) && showDetalleModal == old(showDetalleModal)
      ensures ok ==>
        var reloaded := NextOk(Drop(old(server.outcomes), 1));
        alimentoForm == BlankLineForm
        && server.outcomes == Drop(Drop(old(server.outcomes), 1), 1)
        && server.log == old(server.log) + [LineRequest(old(comidaDetalle).value, old(alimentoForm)).value]
          + (if reloaded then [GetComida(old(comidaDetalle).value)] else [])
        && showDetalleModal == (old(showDetalleModal) || reloaded)
      ensures server.nextId == old(server.nextId)
      ensures formData == old(formData) && editingComida == old(editingComida)
      ensures nuevoAlimentoForm == old(nuevoAlimentoForm) && comidaDetalle == old(comidaDetalle)
      ensures showModal == old(showModal) && showAlimentoModal == old(showAlimentoModal)
    {
      ok := false;
      if comidaDetalle.None? {
        return;
      }
      var request := LineRequest(comidaDetalle.value, alimentoForm);
      if request.None? {
        return;
      }
      ok := server.Send(request.value);
      if !ok {
        return;
      }
      var loaded := FetchComidaDetalle(server, comidaDetalle.value);
      alimentoForm := BlankLineForm;
    }

    /** `handleCrearAlimento`: creates the food from the normalised form; on
        success the new food is picked in the add-food form, the dialog
        closes and the food form is cleared; on failure nothing changes. */
    method HandleCrearAlimento(server: Server) returns (id: Option<nat>)
      modifies this, server
      ensures server.webProducts == old(server.webProducts)
      ensures server.aiAlimentos == old(server.aiAlimentos) && server.aiMensaje == old(server.aiMensaje)
      ensures id.Some? == NextOk(old(server.outcomes)) && server.outcomes == Drop(old(server.outcomes), 1)
      ensures server.nextId == old(server.nextId) + (if id.Some? then 1 else 0)
      ensures server.log == old(server.log) + (if id.Some? then [PostAlimento(FoodBody(old(nuevoAlimentoForm)))] else [])
      ensures id.Some? ==> (id.value == old(server.nextId)
        && alimentoForm == old(alimentoForm).(alimentoId := SelectText(id))
        && !showAlimentoModal && nuevoAlimentoForm == BlankFoodForm)
      ensures id.None? ==> (alimentoForm == old(alimentoForm) && nuevoAlimentoForm == old(nuevoAlimentoForm)
        && showAlimentoModal == old(showAlimentoModal))
      ensures formData == old(formData) && editingComida == old(editingComida)
      ensures comidaDetalle == old(comidaDetalle) && showModal == old(showModal)
      ensures showDetalleModal == old(showDetalleModal)
    {
      id := server.Create(PostAlimento(FoodBody(nuevoAlimentoForm)));
      if id.None? {
        return;
      }
      alimentoForm := alimentoForm.(alimentoId := NatToString(id.value));
      showAlimentoModal := false;
      nuevoAlimentoForm := BlankFoodForm;
    }
  }
}
