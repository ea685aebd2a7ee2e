/** The floating chat (`ChatbotFlotante`): it reads a meal slot and foods out
    of an utterance, offers what it found in the catalog (or, failing that,
    on the web) as messages with actions, and logs what the user accepts. */
module Chatbot {
  import opened Js
  import opened Seqs
  import opened Text
  import opened Domain
  import opened Backend
  import opened Patterns

  // ---------------------------------------------------------------------
  // Meal slot detection (`detectarTipoComida`).

  /** The keyword table, in the order it is searched. */
  const MealKeywords: seq<(string, MealSlot)> := [
    ("desayuno", Desayuno), ("desayuné", Desayuno), ("desayune", Desayuno),
    ("almuerzo", Almuerzo), ("almorcé", Almuerzo), ("almorce", Almuerzo), ("almorzé", Almuerzo),
    ("comí", Almuerzo), ("comi", Almuerzo),
    ("merienda", Merienda),
    ("cené", Cena), ("cene", Cena), ("cena", Cena),
    ("snack", Snacks), ("snacks", Snacks), ("colación", Snacks), ("colacion", Snacks)
  ]

  /** The slot the table gives a lowered text when searched from entry `i`:
      that of the first keyword the text contains, or `Extra`. */
  function SlotFrom(textoLower: string, i: nat): MealSlot
    requires i <= |MealKeywords|
    decreases |MealKeywords| - i
  {
    if i == |MealKeywords| then Extra
    else if Includes(textoLower, MealKeywords[i].0) then MealKeywords[i].1
    else SlotFrom(textoLower, i + 1)
  }

  /** The slot of a lowered text. */
  function MealSlotOf(textoLower: string): MealSlot {
    SlotFrom(textoLower, 0)
  }

  lemma {:induction false} SlotFromFirst(textoLower: string, i: nat, k: nat)
    requires i <= k < |MealKeywords| && Includes(textoLower, MealKeywords[k].0)
    requires forall j :: i <= j < k ==> !Includes(textoLower, MealKeywords[j].0)
    ensures SlotFrom(textoLower, i) == MealKeywords[k].1
    decreases k - i
  {
    if i < k {
      SlotFromFirst(textoLower, i + 1, k);
    }
  }

  /** The first keyword the text contains decides the slot. */
  lemma DetectFirstKeyword(textoLower: string, k: nat)
    requires k < |MealKeywords| && Includes(textoLower, MealKeywords[k].0)
    requires forall j :: 0 <= j < k ==> !Includes(textoLower, MealKeywords[j].0)
    ensures MealSlotOf(textoLower) == MealKeywords[k].1
  {
    SlotFromFirst(textoLower, 0, k);
  }

  /** No keyword leads to `Extra`. */
  lemma KeywordSlots(a: nat)
    requires a < |MealKeywords|
    ensures MealKeywords[a].1 != Extra
  {
  }

  lemma {:induction false} SlotFromExtra(textoLower: string, i: nat)
    requires i <= |MealKeywords|
    ensures SlotFrom(textoLower, i) == Extra
      <==> forall j :: i <= j < |MealKeywords| ==> !Includes(textoLower, MealKeywords[j].0)
    decreases |MealKeywords| - i
  {
    if i < |MealKeywords| {
      SlotFromExtra(textoLower, i + 1);
      KeywordSlots(i);
    }
  }

  /** A text with no keyword goes to `Extra`, and only such a text does. */
  lemma DetectExtra(textoLower: string)
    ensures MealSlotOf(textoLower) == Extra
      <==> forall j :: 0 <= j < |MealKeywords| ==> !Includes(textoLower, MealKeywords[j].0)
  {
    SlotFromExtra(textoLower, 0);
  }

  /** A text containing keyword `b` has a first keyword at or before `b`. */
  lemma {:induction false} FirstKeywordBy(textoLower: string, i: nat, b: nat)
    requires i <= b < |MealKeywords| && Includes(textoLower, MealKeywords[b].0)
    ensures exists k :: (i <= k <= b && Includes(textoLower, MealKeywords[k].0)
                         && forall j :: i <= j < k ==> !Includes(textoLower, MealKeywords[j].0))
    decreases b - i
  {
    if !Includes(textoLower, MealKeywords[i].0) {
      FirstKeywordBy(textoLower, i + 1, b);
    }
  }

  /** `snacks` is searched after `snack` (entry 13), which it contains: the
      scan always stops at entry 13 or before, so the `snacks` entry never
      decides. */
  lemma SnacksKeywordShadowed(textoLower: string)
    requires Includes(textoLower, "snacks")
    ensures exists k :: (0 <= k < 14 && Includes(textoLower, MealKeywords[k].0)
                         && (forall j :: 0 <= j < k ==> !Includes(textoLower, MealKeywords[j].0))
                         && MealSlotOf(textoLower) == MealKeywords[k].1)
  {
    assert Occurs("snacks", "snack", 0);
    IncludesTransitive(textoLower, "snacks", "snack");
    assert MealKeywords[13].0 == "snack";
    FirstKeywordBy(textoLower, 0, 13);
    var k :| 0 <= k <= 13 && Includes(textoLower, MealKeywords[k].0)
      && forall j :: 0 <= j < k ==> !Includes(textoLower, MealKeywords[j].0);
    DetectFirstKeyword(textoLower, k);
  }

  /** `detectarTipoComida`: the table walked in order, returning at the first hit. */
  method DetectarTipoComida(texto: string) returns (slot: MealSlot)
    ensures slot == MealSlotOf(Lower(texto))
  {
    var textoLower := Lower(texto);
    var i := 0;
    while i < |MealKeywords|
      invariant 0 <= i <= |MealKeywords|
      invariant forall j :: 0 <= j < i ==> !Includes(textoLower, MealKeywords[j].0)
    {
      if Includes(textoLower, MealKeywords[i].0) {
        DetectFirstKeyword(textoLower, i);
        return MealKeywords[i].1;
      }
      i := i + 1;
    }
    DetectExtra(textoLower);
    return Extra;
  }

  // ---------------------------------------------------------------------
  // Local matching (`buscarLocalmente`).

  /** A catalog name matches the utterance when the utterance contains it, or
      when it contains the utterance's first space-separated token. */
  predicate NameMatches(textoLower: string, nombre: string) {
    Includes(textoLower, Lower(nombre)) || Includes(Lower(nombre), FirstToken(textoLower))
  }

  /** The quantity the two patterns read, tried in order until one matches. */
  function ChatQuantity(textoLower: string, nombreLower: string): Option<real> {
    match Extract(textoLower, ChatTail(nombreLower))
    case Some(q) => Some(q)
    case None => Extract(textoLower, SimpleTail(nombreLower))
  }

  /** The candidate the chat builds for a matching food: one portion unless a
      pattern reads a number, and then weight mode when the utterance holds a
      standalone unit word anywhere. */
  function ChatCandidate(texto: string, f: Food): Candidate {
    var textoLower := Lower(texto);
    match ChatQuantity(textoLower, Lower(f.nombre))
    case None => Candidate(f.id, f, 1.0, Porcion)
    case Some(q) => Candidate(f.id, f, q, if HasUnitWord(textoLower) then Peso else Porcion)
  }

  /** The test that keeps a catalog food. */
  function MatchesIn(texto: string): Food -> bool {
    (f: Food) => NameMatches(Lower(texto), f.nombre)
  }

  function ChatCandidateIn(texto: string): Food -> Candidate {
    f => ChatCandidate(texto, f)
  }

  /** The test that keeps a meal template. */
  function MealMatchesIn(texto: string): Meal -> bool {
    (m: Meal) => NameMatches(Lower(texto), m.nombre)
  }

  /** The foods found locally: one candidate per matching food, in catalog order. */
  function LocalFoods(texto: string, alimentos: seq<Food>): seq<Candidate> {
    MapFilter(alimentos, MatchesIn(texto), ChatCandidateIn(texto))
  }

  /** The meal templates found locally, in catalog order. */
  function LocalMeals(texto: string, comidas: seq<Meal>): seq<Meal> {
    Filter(comidas, MealMatchesIn(texto))
  }

  /** A candidate is found exactly for a catalog food whose name matches. */
  lemma {:induction false} LocalFoodsMembership(texto: string, alimentos: seq<Food>, c: Candidate)
    ensures c in LocalFoods(texto, alimentos)
      <==> exists k :: 0 <= k < |alimentos| && NameMatches(Lower(texto), alimentos[k].nombre)
                       && c == ChatCandidate(texto, alimentos[k])
  {
    if alimentos != [] {
      LocalFoodsMembership(texto, alimentos[1..], c);
      if exists k :: 0 <= k < |alimentos| && NameMatches(Lower(texto), alimentos[k].nombre)
                     && c == ChatCandidate(texto, alimentos[k]) {
        var k :| 0 <= k < |alimentos| && NameMatches(Lower(texto), alimentos[k].nombre)
                 && c == ChatCandidate(texto, alimentos[k]);
        if k > 0 {
          assert alimentos[1..][k - 1] == alimentos[k];
        }
      }
      if c in LocalFoods(texto, alimentos[1..]) {
        var k :| 0 <= k < |alimentos| - 1 && NameMatches(Lower(texto), alimentos[1..][k].nombre)
                 && c == ChatCandidate(texto, alimentos[1..][k]);
        assert alimentos[k + 1] == alimentos[1..][k];
      }
    }
  }

  /** A meal template is found exactly when it is in the catalog and its name matches. */
  lemma LocalMealsMembership(texto: string, comidas: seq<Meal>, m: Meal)
    ensures m in LocalMeals(texto, comidas) <==> m in comidas && NameMatches(Lower(texto), m.nombre)
  {
    FilterMembership(comidas, MealMatchesIn(texto), m);
  }

  /** An utterance starting with a space has an empty first token, which every
      name contains: the whole catalog matches. */
  lemma {:induction false} LeadingSpaceMatchesAll(texto: string, alimentos: seq<Food>)
    requires |texto| > 0 && texto[0] == ' '
    ensures |LocalFoods(texto, alimentos)| == |alimentos|
  {
    if alimentos != [] {
      assert FirstToken(Lower(texto)) == "";
      IncludesEmpty(Lower(alimentos[0].nombre));
      LeadingSpaceMatchesAll(texto, alimentos[1..]);
    }
  }

  /** The second pattern never decides: the quantity is the first pattern's. */
  lemma ChatQuantityFirstPattern(textoLower: string, nombreLower: string)
    ensures ChatQuantity(textoLower, nombreLower) == Extract(textoLower, ChatTail(nombreLower))
  {
    if Extract(textoLower, ChatTail(nombreLower)).None? {
      SimpleNeverDecidesChat(nombreLower, textoLower);
    }
  }

  /** A food matched only through the first-word rule keeps one portion. */
  lemma ChatCandidateDefault(texto: string, f: Food)
    requires !Includes(Lower(texto), Lower(f.nombre))
    ensures ChatCandidate(texto, f) == Candidate(f.id, f, 1.0, Porcion)
  {
    ChatNeedsName(Lower(f.nombre), Lower(texto));
    ChatQuantityFirstPattern(Lower(texto), Lower(f.nombre));
  }

  /** When the pattern reads a number, that is the quantity; the mode is weight
      exactly when the utterance, anywhere, holds a standalone unit word. */
  lemma ChatCandidateQuantity(texto: string, f: Food, q: real)
    requires Extract(Lower(texto), ChatTail(Lower(f.nombre))) == Some(q)
    ensures ChatCandidate(texto, f).cantidad == q
    ensures ChatCandidate(texto, f).modo == Peso <==> HasUnitWord(Lower(texto))
  {
  }

  /** Weight mode needs both a number read by the pattern and a unit word. */
  lemma ChatWeightNeedsNumber(texto: string, f: Food)
    requires ChatCandidate(texto, f).modo == Peso
    ensures Extract(Lower(texto), ChatTail(Lower(f.nombre))).Some? && HasUnitWord(Lower(texto))
  {
    ChatQuantityFirstPattern(Lower(texto), Lower(f.nombre));
  }

  /** The quantity of a candidate: `parseFloat(match[1])` of the first
      pattern that matches, trying the patterns in order. */
  method ReadCandidate(texto: string, f: Food) returns (c: Candidate)
    ensures c == ChatCandidate(texto, f)
  {
    var textoLower := Lower(texto);
    var nombreLower := Lower(f.nombre);
    var cantidad := 1.0;
    var modo := Porcion;
    var patterns := [ChatTail(nombreLower), SimpleTail(nombreLower)];
    ghost var q := ChatQuantity(textoLower, nombreLower);
    assert q == if Extract(textoLower, patterns[0]).Some? then Extract(textoLower, patterns[0]) else Extract(textoLower, patterns[1]);
    var i := 0;
    while i < |patterns|
      invariant 0 <= i <= |patterns|
      invariant forall j :: 0 <= j < i ==> Extract(textoLower, patterns[j]).None?
      invariant cantidad == 1.0 && modo == Porcion
    {
      var m := Extract(textoLower, patterns[i]);
      if m.Some? {
        assert q == m;
        cantidad := m.value;
        if HasUnitWord(textoLower) {
          modo := Peso;
        }
        c := Candidate(f.id, f, cantidad, modo);
        return;
      }
      i := i + 1;
    }
    assert q.None?;
    c := Candidate(f.id, f, cantidad, modo);
  }

  /** `buscarLocalmente`: both catalogs walked in order, pushing every match. */
  method BuscarLocalmente(texto: string, alimentos: seq<Food>, comidas: seq<Meal>)
    returns (foods: seq<Candidate>, meals: seq<Meal>)
    ensures foods == LocalFoods(texto, alimentos)
    ensures meals == LocalMeals(texto, comidas)
  {
    foods := FoodsFound(texto, alimentos);
    meals := MealsFound(texto, comidas);
  }

  /** The first walk of `buscarLocalmente`: a candidate for every matching food. */
  method FoodsFound(texto: string, alimentos: seq<Food>) returns (foods: seq<Candidate>)
    ensures foods == LocalFoods(texto, alimentos)
  {
    var textoLower := Lower(texto);
    foods := [];
    var i := 0;
    while i < |alimentos|
      invariant 0 <= i <= |alimentos|
      invariant foods == LocalFoods(texto, alimentos[..i])
    {
      MapFilterSnoc(alimentos[..i], alimentos[i], MatchesIn(texto), ChatCandidateIn(texto));
      assert alimentos[..i + 1] == alimentos[..i] + [alimentos[i]];
      if NameMatches(textoLower, alimentos[i].nombre) {
        var c := ReadCandidate(texto, alimentos[i]);
        foods := foods + [c];
      }
      i := i + 1;
    }
    assert alimentos[..i] == alimentos;
  }

  /** The second walk of `buscarLocalmente`: every matching meal template. */
  method MealsFound(texto: string, comidas: seq<Meal>) returns (meals: seq<Meal>)
    ensures meals == LocalMeals(texto, comidas)
  {
    var textoLower := Lower(texto);
    meals := [];
    var j := 0;
    while j < |comidas|
      invariant 0 <= j <= |comidas|
      invariant meals == LocalMeals(texto, comidas[..j])
    {
      FilterConcat(comidas[..j], [comidas[j]], MealMatchesIn(texto));
      assert comidas[..j + 1] == comidas[..j] + [comidas[j]];
      if NameMatches(textoLower, comidas[j].nombre) {
        meals := meals + [comidas[j]];
      }
      j := j + 1;
    }
    assert comidas[..j] == comidas;
  }

  // ---------------------------------------------------------------------
  // Messages.

  datatype Sender = Bot | Usuario

  /** Where a web product's figures come from (`fuente`). */
  datatype Source = OpenFoodFacts | Usda | BaseDeDatos | Estimado

  function SourceOf(fuente: string): Source {
    if fuente == "openfoodfacts" then OpenFoodFacts
    else if fuente == "usda" then Usda
    else if fuente == "base_datos_comun" then BaseDeDatos
    else Estimado
  }

  /** A figure of a web product as shown: `x || 'N/A'`, with `None` for N/A. */
  function Shown(x: JsNum): (r: Option<real>)
    ensures r.Some? <==> Truthy(x)
  {
    if Truthy(x) then Some(x.v) else None
  }

  /** ` como <slot>`, or nothing for `Extra`. */
  function SlotLabel(slot: MealSlot): (shown: string)
    ensures shown == "" <==> slot == Extra
  {
    if slot == Extra then "" else " como " + SlotId(slot)
  }

  /** One line of the found-foods message: name, quantity and its unit. */
  datatype Line = Line(nombre: string, cantidad: real, modo: Mode)

  /** What a message says; numbers stay numbers, the surrounding wording is fixed per kind. */
  datatype Body =
    | Greeting
    | UserText(texto: string)
    | FoundMeals(count: nat)
    | MealOption(nombre: string)
    | FoundFoods(lines: seq<Line>, slotLabel: string)
    | SearchingWeb
    | WebProduct(nombre: string, fuente: Source, calorias: Option<real>, grasas: Option<real>,
                 carbohidratos: Option<real>, proteinas: Option<real>, nota: string, slotLabel: string)
    | NoWebMatch
    | AddedFoods(count: nat, slotLabel: string)
    | AddFoodsFailed
    | AddedMeal(slotLabel: string)
    | AddMealFailed
    | AddedProduct(nombre: string, slotLabel: string)
    | AddProductFailed
    | SavedProduct(nombre: string)
    | SaveProductFailed

  /** The buttons a message carries. */
  datatype Action =
    | AddFoods(items: seq<Candidate>, slot: MealSlot)
    | AddMeal(comidaId: nat, slot: MealSlot)
    | AddProduct(producto: Product, slot: MealSlot)
    | SaveProduct(producto: Product)

  datatype Message = Message(sender: Sender, body: Body, acciones: seq<Action>)

  function BotSays(b: Body): Message {
    Message(Bot, b, [])
  }

  function Lines(items: seq<Candidate>): (lines: seq<Line>)
    ensures |lines| == |items|
    ensures forall i :: 0 <= i < |items| ==>
      lines[i] == Line(items[i].alimento.nombre, items[i].cantidad, items[i].modo)
  {
    seq(|items|, i requires 0 <= i < |items| =>
      Line(items[i].alimento.nombre, items[i].cantidad, items[i].modo))
  }

  /** `mostrarResultadosLocales`: the meal templates (a header, then one
      message per template with its button), then all foods in one message
      with one button for the lot. */
  function LocalReplies(foods: seq<Candidate>, meals: seq<Meal>, slot: MealSlot): seq<Message> {
    (if |meals| > 0 then
       [BotSays(FoundMeals(|meals|))]
       + seq(|meals|, i requires 0 <= i < |meals| =>
               Message(Bot, MealOption(meals[i].nombre), [AddMeal(meals[i].id, slot)]))
     else [])
    + (if |foods| > 0 then
         [Message(Bot, FoundFoods(Lines(foods), SlotLabel(slot)), [AddFoods(foods, slot)])]
       else [])
    + (if |foods| == 0 && |meals| == 0 then [BotSays(SearchingWeb)] else [])
  }

  /** The message for one web product, with its two buttons. */
  function ProductMessage(p: Product, slot: MealSlot): Message {
    Message(Bot,
            WebProduct(p.nombre, SourceOf(p.fuente), Shown(p.calorias), Shown(p.grasas),
                       Shown(p.carbohidratos), Shown(p.proteinas), p.nota, SlotLabel(slot)),
            [AddProduct(p, slot), SaveProduct(p)])
  }

  /** `mostrarResultadosWeb`: one message per product, or the no-match message. */
  function WebReplies(products: seq<Product>, slot: MealSlot): (r: seq<Message>)
    ensures |products| > 0 ==> |r| == |products|
    ensures |products| == 0 ==> r == [BotSays(NoWebMatch)]
  {
    if |products| > 0 then
      seq(|products|, i requires 0 <= i < |products| => ProductMessage(products[i], slot))
    else [BotSays(NoWebMatch)]
  }

  /** The products the lookup yields: the answer's, or none when the call fails. */
  function WebAnswer(ok: bool, products: seq<Product>): seq<Product> {
    if ok then products else []
  }

  /** Whether anything was found locally. */
  predicate FoundLocally(texto: string, alimentos: seq<Food>, comidas: seq<Meal>) {
    |LocalFoods(texto, alimentos)| > 0 || |LocalMeals(texto, comidas)| > 0
  }

  /** The bot's answer to an utterance: local results when there are any,
      otherwise the web notice followed by the web results. */
  function Replies(texto: string, alimentos: seq<Food>, comidas: seq<Meal>, web: seq<Product>): seq<Message> {
    var slot := MealSlotOf(Lower(texto));
    if FoundLocally(texto, alimentos, comidas) then
      LocalReplies(LocalFoods(texto, alimentos), LocalMeals(texto, comidas), slot)
    else [BotSays(SearchingWeb)] + WebReplies(web, slot)
  }

  lemma RepliesLocal(texto: string, alimentos: seq<Food>, comidas: seq<Meal>, web: seq<Product>)
    requires FoundLocally(texto, alimentos, comidas)
    ensures Replies(texto, alimentos, comidas, web)
         == LocalReplies(LocalFoods(texto, alimentos), LocalMeals(texto, comidas), MealSlotOf(Lower(texto)))
  {
  }

  lemma RepliesWeb(texto: string, alimentos: seq<Food>, comidas: seq<Meal>, web: seq<Product>)
    requires !FoundLocally(texto, alimentos, comidas)
    ensures Replies(texto, alimentos, comidas, web)
         == [BotSays(SearchingWeb)] + WebReplies(web, MealSlotOf(Lower(texto)))
  {
  }

  /** The web answer only matters when nothing was found locally. */
  lemma LocalIgnoresWeb(texto: string, alimentos: seq<Food>, comidas: seq<Meal>, w1: seq<Product>, w2: seq<Product>)
    requires FoundLocally(texto, alimentos, comidas)
    ensures Replies(texto, alimentos, comidas, w1) == Replies(texto, alimentos, comidas, w2)
  {
  }

  /** Local replies never repeat the web notice: its branch in
      `mostrarResultadosLocales` is dead. */
  lemma LocalRepliesNoWebNotice(texto: string, alimentos: seq<Food>, comidas: seq<Meal>, web: seq<Product>)
    requires FoundLocally(texto, alimentos, comidas)
    ensures BotSays(SearchingWeb) !in Replies(texto, alimentos, comidas, web)
  {
    RepliesLocal(texto, alimentos, comidas, web);
    LocalRepliesBodies(LocalFoods(texto, alimentos), LocalMeals(texto, comidas), MealSlotOf(Lower(texto)));
  }

  lemma LocalRepliesBodies(foods: seq<Candidate>, meals: seq<Meal>, slot: MealSlot)
    requires |foods| > 0 || |meals| > 0
    ensures BotSays(SearchingWeb) !in LocalReplies(foods, meals, slot)
  {
    var options := seq(|meals|, i requires 0 <= i < |meals| =>
                         Message(Bot, MealOption(meals[i].nombre), [AddMeal(meals[i].id, slot)]));
    var a := if |meals| > 0 then [BotSays(FoundMeals(|meals|))] + options else [];
    var b := if |foods| > 0 then [Message(Bot, FoundFoods(Lines(foods), SlotLabel(slot)), [AddFoods(foods, slot)])] else [];
    assert LocalReplies(foods, meals, slot) == a + b;
    assert forall k :: 0 <= k < |options| ==> options[k].body.MealOption?;
    assert BotSays(SearchingWeb) !in options;
  }

  /** The found foods are offered as one button that adds all of them to the detected slot. */
  lemma LocalRepliesOfferFoods(texto: string, alimentos: seq<Food>, comidas: seq<Meal>, web: seq<Product>)
    requires |LocalFoods(texto, alimentos)| > 0
    ensures var r := Replies(texto, alimentos, comidas, web);
      r[|r| - 1].acciones == [AddFoods(LocalFoods(texto, alimentos), MealSlotOf(Lower(texto)))]
  {
  }

  /** A failed lookup reads like an empty one: the notice, then "no match". */
  lemma WebFailureIsNoMatch(texto: string, alimentos: seq<Food>, comidas: seq<Meal>, products: seq<Product>)
    requires !FoundLocally(texto, alimentos, comidas)
    ensures Replies(texto, alimentos, comidas, WebAnswer(false, products))
         == [BotSays(SearchingWeb), BotSays(NoWebMatch)]
  {
  }

  // ---------------------------------------------------------------------
  // Creating foods from web products.

  /** The food a web product is saved as: missing figures become 0 and the
      portion weight 100. */
  function ProductFood(p: Product): (d: FoodData)
    ensures d.nombre == p.nombre
    ensures d.calorias.Num? && d.grasas.Num? && d.carbohidratos.Num? && d.proteinas.Num? && d.sodio.Num?
    ensures Truthy(p.calorias) ==> d.calorias == p.calorias
    ensures !Truthy(p.calorias) ==> d.calorias == Num(0.0)
    ensures d.pesoPorcion.Num? && d.pesoPorcion.v != 0.0
  {
    FoodData(p.nombre, Num(Or(p.calorias, 0.0)), Num(Or(p.grasas, 0.0)),
             Num(Or(p.carbohidratos, 0.0)), Num(Or(p.proteinas, 0.0)), Num(Or(p.sodio, 0.0)),
             Num(Or(p.pesoPorcion, 100.0)))
  }

  /** The grams logged for a web product are one portion of the created food. */
  lemma ProductLogsOnePortion(p: Product, id: nat)
    ensures var d := ProductFood(p);
      var f := Food(id, d.nombre, d.calorias, d.grasas, d.carbohidratos, d.proteinas, d.sodio, d.pesoPorcion);
      Grams(Candidate(id, f, 1.0, Porcion)) == Or(p.pesoPorcion, 100.0)
  {
  }

  /** The answer to an utterance, asking the web only when the catalog has
      nothing; a failed web lookup is answered as an empty one. */
  method Answer(texto: string, alimentos: seq<Food>, comidas: seq<Meal>, server: Server)
    returns (replies: seq<Message>)
    modifies server
    ensures replies == Replies(texto, alimentos, comidas, WebAnswer(NextOk(old(server.outcomes)), old(server.webProducts)))
    ensures FoundLocally(texto, alimentos, comidas) ==>
      server.log == old(server.log) && server.outcomes == old(server.outcomes)
    ensures !FoundLocally(texto, alimentos, comidas) ==>
      server.outcomes == Drop(old(server.outcomes), 1)
      && server.log == old(server.log) + (if NextOk(old(server.outcomes)) then [BuscarWeb(texto)] else [])
    ensures server.nextId == old(server.nextId) && server.webProducts == old(server.webProducts)
    ensures server.aiAlimentos == old(server.aiAlimentos) && server.aiMensaje == old(server.aiMensaje)
  {
    var slot := DetectarTipoComida(texto);
    var foods, meals := BuscarLocalmente(texto, alimentos, comidas);
    if |foods| > 0 || |meals| > 0 {
      RepliesLocal(texto, alimentos, comidas, WebAnswer(NextOk(server.outcomes), server.webProducts));
      replies := LocalReplies(foods, meals, slot);
    } else {
      RepliesWeb(texto, alimentos, comidas, WebAnswer(NextOk(server.outcomes), server.webProducts));
      var ok := server.Send(BuscarWeb(texto));
      replies := [BotSays(SearchingWeb)] + WebReplies(WebAnswer(ok, server.webProducts), slot);
    }
  }

  // ---------------------------------------------------------------------
  // The component's state.

  class Chat {
    var isOpen: bool
    var mensajes: seq<Message>
    var inputMensaje: string
    var procesando: bool

    constructor()
      ensures !isOpen && mensajes == [BotSays(Greeting)] && inputMensaje == "" && !procesando
    {
      isOpen := false;
      mensajes := [BotSays(Greeting)];
      inputMensaje := "";
      procesando := false;
    }

    /** The floating button opens the panel, the close button closes it. */
    method SetOpen(open: bool)
      modifies this
      ensures isOpen == open
      ensures mensajes == old(mensajes) && inputMensaje == old(inputMensaje) && procesando == old(procesando)
    {
      isOpen := open;
    }

    /** Typing in the input. */
    method HandleInputChange(value: string)
      modifies this
      ensures inputMensaje == value
      ensures isOpen == old(isOpen) && mensajes == old(mensajes) && procesando == old(procesando)
    {
      inputMensaje := value;
    }

    /** `agregarMensaje`: appends one message. */
    method AgregarMensaje(sender: Sender, body: Body, acciones: seq<Action>)
      modifies this
      ensures mensajes == old(mensajes) + [Message(sender, body, acciones)]
      ensures isOpen == old(isOpen) && inputMensaje == old(inputMensaje) && procesando == old(procesando)
    {
      mensajes := mensajes + [Message(sender, body, acciones)];
    }

    /** `handleSubmit`: a blank input, or one sent while busy, is ignored. */
    method HandleSubmit(alimentos: seq<Food>, comidas: seq<Meal>, server: Server)
      modifies this, server
      ensures IsBlank(old(inputMensaje)) || old(procesando) ==>
        mensajes == old(mensajes) && inputMensaje == old(inputMensaje)
        && procesando == old(procesando) && server.log == old(server.log)
        && server.outcomes == old(server.outcomes)
      ensures !(IsBlank(old(inputMensaje)) || old(procesando)) ==>
        mensajes == old(mensajes) + [Message(Usuario, UserText(old(inputMensaje)), [])]
          + Replies(old(inputMensaje), alimentos, comidas,
                    WebAnswer(NextOk(old(server.outcomes)), old(server.webProducts)))
        && inputMensaje == "" && !procesando
      ensures !(IsBlank(old(inputMensaje)) || old(procesando)) && FoundLocally(old(inputMensaje), alimentos, comidas) ==>
        server.log == old(server.log) && server.outcomes == old(server.outcomes)
      ensures !(IsBlank(old(inputMensaje)) || old(procesando)) && !FoundLocally(old(inputMensaje), alimentos, comidas) ==>
        server.outcomes == Drop(old(server.outcomes), 1)
        && server.log == old(server.log) + (if NextOk(old(server.outcomes)) then [BuscarWeb(old(inputMensaje))] else [])
      ensures isOpen == old(isOpen)
      ensures server.nextId == old(server.nextId) && server.webProducts == old(server.webProducts)
      ensures server.aiAlimentos == old(server.aiAlimentos) && server.aiMensaje == old(server.aiMensaje)
    {
      if IsBlank(inputMensaje) || procesando {
        return;
      }
      ProcesarMensaje(inputMensaje, alimentos, comidas, server);
    }

    /** `procesarMensaje`: echo the utterance, then answer from the catalog, or
        from the web when the catalog has nothing. A failed web lookup is
        answered as an empty one. */
    method ProcesarMensaje(texto: string, alimentos: seq<Food>, comidas: seq<Meal>, server: Server)
      modifies this, server
      ensures mensajes == old(mensajes) + [Message(Usuario, UserText(texto), [])]
        + Replies(texto, alimentos, comidas, WebAnswer(NextOk(old(server.outcomes)), old(server.webProducts)))
      ensures inputMensaje == "" && !procesando && isOpen == old(isOpen)
      ensures FoundLocally(texto, alimentos, comidas) ==>
        server.log == old(server.log) && server.outcomes == old(server.outcomes)
      ensures !FoundLocally(texto, alimentos, comidas) ==>
        server.outcomes == Drop(old(server.outcomes), 1)
        && server.log == old(server.log) + (if NextOk(old(server.outcomes)) then [BuscarWeb(texto)] else [])
      ensures server.nextId == old(server.nextId) && server.webProducts == old(server.webProducts)
      ensures server.aiAlimentos == old(server.aiAlimentos) && server.aiMensaje == old(server.aiMensaje)
    {
      procesando := true;
      AgregarMensaje(Usuario, UserText(texto), []);
      inputMensaje := "";
      ghost var echoed := mensajes;
      var replies := Answer(texto, alimentos, comidas, server);
      assert mensajes == echoed && isOpen == old(isOpen);
      mensajes := mensajes + replies;
      procesando := false;
    }

    /** `agregarAlimentos`: posts the items in order, converting portions to
        grams; the first failure ends the loop (earlier posts stay) and is
        reported instead of the success message. */
    method AgregarAlimentos(items: seq<Candidate>, slot: MealSlot, server: Server)
      modifies this, server
      ensures var k := LeadingOk(old(server.outcomes), |items|);
        server.log == old(server.log) + EntryPosts(items[..k], SlotId(slot))
        && server.outcomes == Drop(old(server.outcomes), if k < |items| then k + 1 else k)
        && mensajes == old(mensajes)
             + [BotSays(if k == |items| then AddedFoods(|items|, SlotLabel(slot)) else AddFoodsFailed)]
      ensures isOpen == old(isOpen) && inputMensaje == old(inputMensaje) && procesando == old(procesando)
      ensures server.nextId == old(server.nextId) && server.webProducts == old(server.webProducts)
      ensures server.aiAlimentos == old(server.aiAlimentos) && server.aiMensaje == old(server.aiMensaje)
    {
      var k := PostEntries(server, items, SlotId(slot));
      if k == |items| {
        AgregarMensaje(Bot, AddedFoods(|items|, SlotLabel(slot)), []);
      } else {
        AgregarMensaje(Bot, AddFoodsFailed, []);
      }
    }

    /** `agregarComida`: logs a saved meal template into the slot. */
    method AgregarComida(comidaId: nat, slot: MealSlot, server: Server)
      modifies this, server
      ensures var ok := NextOk(old(server.outcomes));
        server.log == old(server.log) + (if ok then [PostRegistroComida(SlotId(slot), comidaId)] else [])
        && mensajes == old(mensajes) + [BotSays(if ok then AddedMeal(SlotLabel(slot)) else AddMealFailed)]
      ensures server.outcomes == Drop(old(server.outcomes), 1)
      ensures isOpen == old(isOpen) && inputMensaje == old(inputMensaje) && procesando == old(procesando)
      ensures server.nextId == old(server.nextId) && server.webProducts == old(server.webProducts)
      ensures server.aiAlimentos == old(server.aiAlimentos) && server.aiMensaje == old(server.aiMensaje)
    {
      var ok := server.Send(PostRegistroComida(SlotId(slot), comidaId));
      AgregarMensaje(Bot, if ok then AddedMeal(SlotLabel(slot)) else AddMealFailed, []);
    }

    /** `agregarProductoWeb`: creates the food, then logs one portion of it
        under the new id. When the creation fails nothing is logged. */
    method AgregarProductoWeb(p: Product, slot: MealSlot, server: Server)
      modifies this, server
      ensures !NextOk(old(server.outcomes)) ==>
        server.log == old(server.log) && server.nextId == old(server.nextId)
        && server.outcomes == Drop(old(server.outcomes), 1)
        && mensajes == old(mensajes) + [BotSays(AddProductFailed)]
      ensures NextOk(old(server.outcomes)) ==>
        var logged := NextOk(Drop(old(server.outcomes), 1));
        server.nextId == old(server.nextId) + 1
        && server.outcomes == Drop(old(server.outcomes), 2)
        && server.log == old(server.log) + [PostAlimento(ProductFood(p))]
             + (if logged then [PostRegistro(SlotId(slot), old(server.nextId), Num(Or(p.pesoPorcion, 100.0)))] else [])
        && mensajes == old(mensajes)
             + [BotSays(if logged then AddedProduct(p.nombre, SlotLabel(slot)) else AddProductFailed)]
      ensures isOpen == old(isOpen) && inputMensaje == old(inputMensaje) && procesando == old(procesando)
      ensures server.webProducts == old(server.webProducts)
      ensures server.aiAlimentos == old(server.aiAlimentos) && server.aiMensaje == old(server.aiMensaje)
    {
      var id := server.Create(PostAlimento(ProductFood(p)));
      if id.None? {
        AgregarMensaje(Bot, AddProductFailed, []);
        return;
      }
      assert Drop(Drop(old(server.outcomes), 1), 1) == Drop(old(server.outcomes), 2);
      var ok := server.Send(PostRegistro(SlotId(slot), id.value, Num(Or(p.pesoPorcion, 100.0))));
      AgregarMensaje(Bot, if ok then AddedProduct(p.nombre, SlotLabel(slot)) else AddProductFailed, []);
    }

    /** `guardarProductoEnAlimentos`: saves the product as a catalog food. */
    method GuardarProductoEnAlimentos(p: Product, server: Server)
      modifies this, server
      ensures var ok := NextOk(old(server.outcomes));
        server.log == old(server.log) + (if ok then [PostAlimento(ProductFood(p))] else [])
        && server.nextId == old(server.nextId) + (if ok then 1 else 0)
        && mensajes == old(mensajes) + [BotSays(if ok then SavedProduct(p.nombre) else SaveProductFailed)]
      ensures server.outcomes == Drop(old(server.outcomes), 1)
      ensures isOpen == old(isOpen) && inputMensaje == old(inputMensaje) && procesando == old(procesando)
      ensures server.webProducts == old(server.webProducts)
      ensures server.aiAlimentos == old(server.aiAlimentos) && server.aiMensaje == old(server.aiMensaje)
    {
      var id := server.Create(PostAlimento(ProductFood(p)));
      AgregarMensaje(Bot, if id.Some? then SavedProduct(p.nombre) else SaveProductFailed, []);
    }

    /** A button press runs the operation its action names. */
    method Perform(a: Action, server: Server)
      modifies this, server
      ensures isOpen == old(isOpen) && inputMensaje == old(inputMensaje) && procesando == old(procesando)
      ensures |mensajes| == |old(mensajes)| + 1 && mensajes[..|old(mensajes)|] == old(mensajes)
      ensures server.webProducts == old(server.webProducts)
      ensures server.aiAlimentos == old(server.aiAlimentos) && server.aiMensaje == old(server.aiMensaje)
    {
      match a
      case AddFoods(items, slot) => AgregarAlimentos(items, slot, server);
      case AddMeal(id, slot) => AgregarComida(id, slot, server);
      case AddProduct(p, slot) => AgregarProductoWeb(p, slot, server);
      case SaveProduct(p) => GuardarProductoEnAlimentos(p, server);
    }
  }
}
