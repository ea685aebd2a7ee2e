/** The food search box (`BuscadorAlimentos`): the suggestion list and the
    small state machine behind the text field. The box reports the chosen
    food to its parent as the text of its id, `""` meaning none. */
module Buscador {
  import opened Js
  import opened Seqs
  import opened Text
  import opened Numbers
  import opened Domain

  // ---------------------------------------------------------------------
  // Looking foods up by id.

  /** `alimentos.find(a => a.id === id)`. */
  function FoodById(alimentos: seq<Food>, id: real): (r: Option<Food>)
    ensures r.Some? ==> r.value in alimentos && r.value.id as real == id
    ensures r.None? <==> forall k :: 0 <= k < |alimentos| ==> alimentos[k].id as real != id
  {
    Find(alimentos, (a: Food) => a.id as real == id)
  }

  /** `alimentos.find(a => a.id === parseInt(idText))`. */
  function FoodByText(alimentos: seq<Food>, idText: string): Option<Food> {
    match ParseInt(idText)
    case Num(v) => FoodById(alimentos, v)
    case _ => None
  }

  /** The value the box reports: `""` for no food, otherwise
      `alimento.id.toString()`. */
  function SelectText(selected: Option<nat>): string {
    match selected
    case None => ""
    case Some(id) => NatToString(id)
  }

  /** The food a reported selection stands for. */
  function FoodBySelection(alimentos: seq<Food>, selected: Option<nat>): Option<Food> {
    match selected
    case None => None
    case Some(id) => FoodById(alimentos, id as real)
  }

  /** `parseInt` of a reported id finds the food with that id, and `""` finds
      none. */
  lemma SelectionLookup(alimentos: seq<Food>, selected: Option<nat>)
    ensures FoodByText(alimentos, SelectText(selected)) == FoodBySelection(alimentos, selected)
  {
    match selected
    case None =>
      assert ParseInt("") == NaN;
    case Some(id) =>
      NatToStringRoundTrip(id);
  }

  /** No two catalog foods share an id. */
  predicate UniqueIds(alimentos: seq<Food>) {
    forall i, j :: 0 <= i < |alimentos| && 0 <= j < |alimentos| && alimentos[i].id == alimentos[j].id ==> i == j
  }

  /** With unique ids, the reported id of a catalog food finds that food. */
  lemma ReportedIdFindsFood(alimentos: seq<Food>, a: Food)
    requires UniqueIds(alimentos) && a in alimentos
    ensures FoodByText(alimentos, SelectText(Some(a.id))) == Some(a)
  {
    SelectionLookup(alimentos, Some(a.id));
    var r := FoodById(alimentos, a.id as real);
    var i :| 0 <= i < |alimentos| && alimentos[i] == a;
    assert r.Some? by {
      assert alimentos[i].id as real == a.id as real;
    }
    var j :| 0 <= j < |alimentos| && alimentos[j] == r.value;
    assert alimentos[i].id == alimentos[j].id;
  }

  // ---------------------------------------------------------------------
  // Suggestions.

  /** Most suggestions shown at once. */
  const MaxSugerencias: nat := 10

  /** The test a food passes for a query: its lowered name contains the
      lowered query. */
  function NameContains(busqueda: string): Food -> bool {
    (f: Food) => Includes(Lower(f.nombre), Lower(busqueda))
  }

  /** `alimentosFiltrados`: the matching foods in catalog order, at most ten. */
  function Sugerencias(alimentos: seq<Food>, busqueda: string): (r: seq<Food>)
    ensures |r| <= MaxSugerencias
    ensures forall k :: 0 <= k < |r| ==> Includes(Lower(r[k].nombre), Lower(busqueda))
  {
    Take(Filter(alimentos, NameContains(busqueda)), MaxSugerencias)
  }

  /** Every suggestion is a catalog food whose name contains the query; when
      at most ten foods match, every one of them is suggested. */
  lemma SugerenciasMembership(alimentos: seq<Food>, busqueda: string, f: Food)
    ensures f in Sugerencias(alimentos, busqueda) ==> f in alimentos && Includes(Lower(f.nombre), Lower(busqueda))
    ensures |Filter(alimentos, NameContains(busqueda))| <= MaxSugerencias ==>
      (f in Sugerencias(alimentos, busqueda) <==> f in alimentos && Includes(Lower(f.nombre), Lower(busqueda)))
  {
    var kept := Filter(alimentos, NameContains(busqueda));
    FilterMembership(alimentos, NameContains(busqueda), f);
    if f in Sugerencias(alimentos, busqueda) {
      var k :| 0 <= k < |Sugerencias(alimentos, busqueda)| && Sugerencias(alimentos, busqueda)[k] == f;
      assert kept[k] == f;
    }
  }

  /** An empty query matches everything: the first ten foods are suggested. */
  lemma EmptyQuerySuggestsFirstTen(alimentos: seq<Food>)
    ensures Sugerencias(alimentos, "") == Take(alimentos, MaxSugerencias)
  {
    forall k | 0 <= k < |alimentos| ensures NameContains("")(alimentos[k]) {
      IncludesEmpty(Lower(alimentos[k].nombre));
    }
    FilterAll(alimentos, NameContains(""));
  }

  /** A food's own name finds it again. */
  lemma NameFindsItself(alimentos: seq<Food>, a: Food)
    requires a in alimentos
    ensures a in Filter(alimentos, NameContains(a.nombre))
  {
    var n := Lower(a.nombre);
    assert Occurs(n, n, 0);
    FilterMembership(alimentos, NameContains(a.nombre), a);
  }

  // ---------------------------------------------------------------------
  // The box.

  class SearchBox {
    var alimentos: seq<Food>
    var busqueda: string
    var mostrarSugerencias: bool
    var seleccionado: Option<Food>
    /** The values reported through `onChange`, oldest first. */
    var reported: seq<string>
    /** The foods reported through `onSelect`, oldest first. */
    var chosen: seq<Food>

    constructor(alimentos: seq<Food>)
      ensures this.alimentos == alimentos && busqueda == "" && !mostrarSugerencias
      ensures seleccionado.None? && reported == [] && chosen == []
    {
      this.alimentos := alimentos;
      busqueda := "";
      mostrarSugerencias := false;
      seleccionado := None;
      reported := [];
      chosen := [];
    }

    /** The suggestions shown right now (none while the list is closed). */
    function Visible(): (r: seq<Food>)
      reads this
      ensures r != [] ==> mostrarSugerencias && busqueda != ""
      ensures |r| <= MaxSugerencias
    {
      if mostrarSugerencias && busqueda != "" && |Sugerencias(alimentos, busqueda)| > 0
      then Sugerencias(alimentos, busqueda) else []
    }

    /** The effect on a new `value` or catalog: a value that names a catalog
        food shows that food, an empty value clears the box, and any other
        value leaves it as it was. */
    method Sync(value: string, alimentos: seq<Food>)
      modifies this
      ensures this.alimentos == alimentos
      ensures value == "" ==> seleccionado.None? && busqueda == ""
      ensures value != "" && FoodByText(alimentos, value).Some? ==>
        seleccionado == FoodByText(alimentos, value) && busqueda == FoodByText(alimentos, value).value.nombre
      ensures value != "" && FoodByText(alimentos, value).None? ==>
        seleccionado == old(seleccionado) && busqueda == old(busqueda)
      ensures mostrarSugerencias == old(mostrarSugerencias)
      ensures reported == old(reported) && chosen == old(chosen)
    {
      this.alimentos := alimentos;
      if value != "" {
        var alimento := FoodByText(alimentos, value);
        if alimento.Some? {
          seleccionado := alimento;
          busqueda := alimento.value.nombre;
        }
      } else {
        seleccionado := None;
        busqueda := "";
      }
    }

    /** `handleInputChange`: typing replaces the query, opens the list, drops
        the selection and reports that no food is chosen. */
    method HandleInputChange(valor: string)
      modifies this
      ensures busqueda == valor && mostrarSugerencias && seleccionado.None?
      ensures reported == old(reported) + [SelectText(None)]
      ensures alimentos == old(alimentos) && chosen == old(chosen)
      ensures valor != "" ==> Visible() == Sugerencias(alimentos, valor)
    {
      busqueda := valor;
      mostrarSugerencias := true;
      seleccionado := None;
      reported := reported + [""];
    }

    /** `handleSeleccionar`: picking a food puts its name in the field, keeps
        it as the selection, closes the list and reports its id. */
    method HandleSeleccionar(a: Food)
      modifies this
      ensures busqueda == a.nombre && seleccionado == Some(a) && !mostrarSugerencias
      ensures reported == old(reported) + [SelectText(Some(a.id))]
      ensures chosen == old(chosen) + [a]
      ensures alimentos == old(alimentos)
      ensures Visible() == []
    {
      busqueda := a.nombre;
      seleccionado := Some(a);
      mostrarSugerencias := false;
      reported := reported + [NatToString(a.id)];
      chosen := chosen + [a];
    }

    /** `handleFocus`: focusing reopens the list only for a non-empty query. */
    method HandleFocus()
      modifies this
      ensures mostrarSugerencias == (old(mostrarSugerencias) || busqueda != "")
      ensures busqueda == old(busqueda) && seleccionado == old(seleccionado)
      ensures alimentos == old(alimentos) && reported == old(reported) && chosen == old(chosen)
    {
      if busqueda != "" {
        mostrarSugerencias := true;
      }
    }
  }

  /** Picking a catalog food and having the parent hand its reported id back
      leaves the box showing that food: the round trip through the parent is
      stable. */
  method SelectThenSync(box: SearchBox, a: Food)
    modifies box
    requires UniqueIds(box.alimentos) && a in box.alimentos
    ensures box.seleccionado == Some(a) && box.busqueda == a.nombre && !box.mostrarSugerencias
  {
    box.HandleSeleccionar(a);
    ReportedIdFindsFood(box.alimentos, a);
    NatToStringRoundTrip(a.id);
    assert NatToString(a.id) != "";
    box.Sync(SelectText(Some(a.id)), box.alimentos);
  }

  /** Typing into the box after the parent already holds a value: the
      keystroke reports `''`, and the effect runs again only when that
      changes the parent's value (`prev`). After a food was picked it does,
      and the effect clears the text just typed; with nothing picked the
      text stays. */
  method TypeThenSync(box: SearchBox, valor: string, prev: string)
    modifies box
    ensures prev != "" ==> box.busqueda == ""
    ensures prev == "" ==> box.busqueda == valor
    ensures box.seleccionado.None? && box.mostrarSugerencias
    ensures box.reported == old(box.reported) + [""]
  {
    box.HandleInputChange(valor);
    var value := box.reported[|box.reported| - 1];
    if value != prev {
      box.Sync(value, box.alimentos);
    }
  }
}
