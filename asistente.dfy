/** The assistant panel (`AsistenteIA`): its own matcher and quantity reader,
    the remote fallback when nothing matches locally, and the commit loop
    that logs every recognised food. */
module Asistente {
  import opened Js
  import opened Seqs
  import opened Text
  import opened Numbers
  import opened Domain
  import opened Backend
  import opened Patterns
  import Chatbot

  // ---------------------------------------------------------------------
  // Recognising foods in a text.

  /** A catalog food is recognised when the lowered text contains its lowered
      name; there is no first-word rule here. */
  predicate Mentioned(textoLower: string, f: Food) {
    Includes(textoLower, Lower(f.nombre))
  }

  /** The weight-mode test: `includes('g') || includes('gramos')`. */
  predicate MentionsGrams(textoLower: string) {
    Includes(textoLower, "g") || Includes(textoLower, "gramos")
  }

  /** The second test adds nothing: weight mode hangs on the letter `g` alone. */
  lemma MentionsGramsIsLetterG(textoLower: string)
    ensures MentionsGrams(textoLower) <==> Includes(textoLower, "g")
  {
    if Includes(textoLower, "gramos") {
      assert Occurs("gramos", "g", 0);
      IncludesTransitive(textoLower, "gramos", "g");
    }
  }

  /** The candidate built for a recognised food: the first pattern's number
      (and weight mode when the text mentions grams), else the simple
      pattern's number in portion mode, else one portion. */
  function AssistantCandidate(texto: string, f: Food): Candidate {
    var textoLower := Lower(texto);
    var nombreLower := Lower(f.nombre);
    match Extract(textoLower, AssistantTail(nombreLower))
    case Some(q) => Candidate(f.id, f, q, if MentionsGrams(textoLower) then Peso else Porcion)
    case None =>
      match Extract(textoLower, SimpleTail(nombreLower))
      case Some(q) => Candidate(f.id, f, q, Porcion)
      case None => Candidate(f.id, f, 1.0, Porcion)
  }

  /** The fallback pattern never decides: the quantity is the first
      pattern's number, or one portion. */
  lemma AssistantQuantity(texto: string, f: Food)
    ensures var m := Extract(Lower(texto), AssistantTail(Lower(f.nombre)));
      AssistantCandidate(texto, f).cantidad == if m.Some? then m.value else 1.0
  {
    var textoLower, nombreLower := Lower(texto), Lower(f.nombre);
    if Extract(textoLower, AssistantTail(nombreLower)).None? {
      SimpleNeverDecidesAssistant(nombreLower, textoLower);
    }
  }

  /** The mode is weight exactly when the first pattern read a number and the
      text contains the letter `g` anywhere, whichever food it is. */
  lemma AssistantMode(texto: string, f: Food)
    ensures AssistantCandidate(texto, f).modo == Peso
      <==> Extract(Lower(texto), AssistantTail(Lower(f.nombre))).Some? && Includes(Lower(texto), "g")
  {
    MentionsGramsIsLetterG(Lower(texto));
  }

  /** The mode belongs to the utterance, not to the food: two foods whose
      numbers the first pattern read get the same mode. */
  lemma AssistantModeShared(texto: string, f: Food, g: Food)
    requires Extract(Lower(texto), AssistantTail(Lower(f.nombre))).Some?
    requires Extract(Lower(texto), AssistantTail(Lower(g.nombre))).Some?
    ensures AssistantCandidate(texto, f).modo == AssistantCandidate(texto, g).modo
  {
    AssistantMode(texto, f);
    AssistantMode(texto, g);
  }

  /** The test that keeps a catalog food. */
  function MentionedIn(texto: string): Food -> bool {
    f => Mentioned(Lower(texto), f)
  }

  function CandidateIn(texto: string): Food -> Candidate {
    f => AssistantCandidate(texto, f)
  }

  /** The foods recognised in a text: one candidate per mentioned food, in
      catalog order. */
  function AssistantFoods(texto: string, alimentos: seq<Food>): seq<Candidate> {
    MapFilter(alimentos, MentionedIn(texto), CandidateIn(texto))
  }

  /** The candidates are the mentioned foods, kept in catalog order, one each. */
  lemma AssistantFoodsAreMentioned(texto: string, alimentos: seq<Food>)
    ensures var kept := Filter(alimentos, MentionedIn(texto));
      |AssistantFoods(texto, alimentos)| == |kept|
      && forall i :: 0 <= i < |kept| ==> AssistantFoods(texto, alimentos)[i] == AssistantCandidate(texto, kept[i])
  {
    MapFilterIsMapOfFilter(alimentos, MentionedIn(texto), CandidateIn(texto));
  }

  /** One more catalog food adds its candidate exactly when it is mentioned. */
  lemma AssistantFoodsSnoc(texto: string, alimentos: seq<Food>, f: Food)
    ensures AssistantFoods(texto, alimentos + [f])
      == AssistantFoods(texto, alimentos) + (if Mentioned(Lower(texto), f) then [AssistantCandidate(texto, f)] else [])
  {
    MapFilterSnoc(alimentos, f, MentionedIn(texto), CandidateIn(texto));
  }

  /** `procesarTexto`: walks the catalog, reading a quantity for every food
      the text mentions. */
  method ProcesarTexto(texto: string, alimentos: seq<Food>) returns (encontrados: seq<Candidate>)
    ensures encontrados == AssistantFoods(texto, alimentos)
  {
    var textoLower := Lower(texto);
    encontrados := [];
    var i := 0;
    while i < |alimentos|
      invariant 0 <= i <= |alimentos|
      invariant encontrados == AssistantFoods(texto, alimentos[..i])
    {
      var alimento := alimentos[i];
      AssistantFoodsSnoc(texto, alimentos[..i], alimento);
      assert alimentos[..i + 1] == alimentos[..i] + [alimento];
      if Includes(textoLower, Lower(alimento.nombre)) {
        var c := ReadQuantity(texto, alimento);
        encontrados := encontrados + [c];
      }
      i := i + 1;
    }
    assert alimentos[..i] == alimentos;
  }

  /** The body of the loop for a mentioned food: one portion unless a
      pattern reads a number. */
  method ReadQuantity(texto: string, alimento: Food) returns (c: Candidate)
    ensures c == AssistantCandidate(texto, alimento)
  {
    var textoLower := Lower(texto);
    var nombreLower := Lower(alimento.nombre);
    var cantidad := 1.0;
    var modo := Porcion;
    var match_ := Extract(textoLower, AssistantTail(nombreLower));
    if match_.Some? {
      cantidad := match_.value;
      if Includes(textoLower, "g") || Includes(textoLower, "gramos") {
        modo := Peso;
      }
    } else {
      var matchSimple := Extract(textoLower, SimpleTail(nombreLower));
      if matchSimple.Some? {
        cantidad := matchSimple.value;
      }
    }
    c := Candidate(alimento.id, alimento, cantidad, modo);
  }

  // ---------------------------------------------------------------------
  // The panel.

  /** The headline over a result: the count the front end writes, or the
      server's own message. */
  datatype Summary = Found(count: nat) | ServerSays(text: string)

  /** A result waiting for confirmation. */
  datatype Resultado = Resultado(alimentos: seq<Candidate>, summary: Summary)

  /** The errors the panel shows. */
  datatype PanelError = NotIdentified | ProcessingFailed | AddingFailed

  /** `response.data.mensaje || 'Encontré N alimento(s)…'`. */
  function RemoteSummary(items: seq<Candidate>, mensaje: string): Summary {
    if mensaje != "" then ServerSays(mensaje) else Found(|items|)
  }

  /** What a submission leaves behind: the local result when there is one;
      otherwise the remote list when the call succeeds with a non-empty list,
      the "be more specific" error when it is empty, the generic error when
      the call fails. */
  function Submitted(local: seq<Candidate>, ok: bool, remote: seq<Candidate>, remoteMensaje: string)
    : (r: (Option<Resultado>, Option<PanelError>))
    ensures r.0.Some? != r.1.Some?
    ensures r.0.Some? ==> |r.0.value.alimentos| > 0
    ensures |local| > 0 ==> r.0 == Some(Resultado(local, Found(|local|)))
    ensures |local| == 0 && !ok ==> r.1 == Some(ProcessingFailed)
    ensures |local| == 0 && ok && |remote| == 0 ==> r.1 == Some(NotIdentified)
    ensures |local| == 0 && ok && |remote| > 0 ==> r.0.Some? && r.0.value.alimentos == remote
  {
    if |local| > 0 then (Some(Resultado(local, Found(|local|))), None)
    else if !ok then (None, Some(ProcessingFailed))
    else if |remote| > 0 then (Some(Resultado(remote, RemoteSummary(remote, remoteMensaje))), None)
    else (None, Some(NotIdentified))
  }

  class Panel {
    var mensaje: string
    var procesando: bool
    var resultado: Option<Resultado>
    var error: Option<PanelError>

    /** Between events nothing is in flight, and a result always lists at
        least one food. */
    predicate Valid()
      reads this
    {
      !procesando && (resultado.Some? ==> |resultado.value.alimentos| > 0)
    }

    constructor()
      ensures Valid()
      ensures mensaje == "" && resultado.None? && error.None?
    {
      mensaje := "";
      procesando := false;
      resultado := None;
      error := None;
    }

    /** Typing in the text area. */
    method SetMensaje(value: string)
      modifies this
      requires Valid()
      ensures Valid()
      ensures mensaje == value
      ensures resultado == old(resultado) && error == old(error)
    {
      mensaje := value;
    }

    /** The result's "Cancelar": drops the result and the text. */
    method Cancelar()
      modifies this
      requires Valid()
      ensures Valid()
      ensures mensaje == "" && resultado.None? && error == old(error)
    {
      resultado := None;
      mensaje := "";
    }

    /** `handleSubmit`: a blank text is ignored; otherwise the previous result
      and error are cleared, the catalog is searched, and only when nothing
      is found is the text sent to the server. */
    method HandleSubmit(server: Server, alimentos: seq<Food>, tipoComida: MealSlot)
      modifies this, server
      requires Valid()
      ensures Valid()
      ensures mensaje == old(mensaje)
      ensures IsBlank(old(mensaje)) ==>
        resultado == old(resultado) && error == old(error)
        && server.log == old(server.log) && server.outcomes == old(server.outcomes)
      ensures !IsBlank(old(mensaje)) ==>
        (resultado, error) == Submitted(AssistantFoods(old(mensaje), alimentos), NextOk(old(server.outcomes)),
                                        old(server.aiAlimentos), old(server.aiMensaje))
      ensures !IsBlank(old(mensaje)) && |AssistantFoods(old(mensaje), alimentos)| > 0 ==>
        server.log == old(server.log) && server.outcomes == old(server.outcomes)
      ensures !IsBlank(old(mensaje)) && |AssistantFoods(old(mensaje), alimentos)| == 0 ==>
        server.outcomes == Drop(old(server.outcomes), 1)
        && server.log == old(server.log)
           + (if NextOk(old(server.outcomes)) then [PostProcesar(old(mensaje), SlotId(tipoComida))] else [])
      ensures server.nextId == old(server.nextId) && server.webProducts == old(server.webProducts)
      ensures server.aiAlimentos == old(server.aiAlimentos) && server.aiMensaje == old(server.aiMensaje)
    {
      if IsBlank(mensaje) {
        return;
      }
      procesando := true;
      error := None;
      resultado := None;
      var encontrados := ProcesarTexto(mensaje, alimentos);
      if |encontrados| > 0 {
        resultado := Some(Resultado(encontrados, Found(|encontrados|)));
      } else {
        var ok := server.Send(PostProcesar(mensaje, SlotId(tipoComida)));
        if !ok {
          error := Some(ProcessingFailed);
        } else if |server.aiAlimentos| > 0 {
          resultado := Some(Resultado(server.aiAlimentos, RemoteSummary(server.aiAlimentos, server.aiMensaje)));
        } else {
          error := Some(NotIdentified);
        }
      }
      procesando := false;
    }

    /** `handleAgregarTodos`: logs every food of the result, in order, in
      grams; on success the text and the result are cleared, on the first
      failure the error is set and the result stays, with the entries
      already posted kept by the server. */
    method HandleAgregarTodos(server: Server, tipoComida: MealSlot) returns (posted: nat)
      modifies this, server
      requires Valid()
      ensures Valid()
      ensures old(resultado).None? ==>
        posted == 0 && mensaje == old(mensaje) && resultado == old(resultado) && error == old(error)
        && server.log == old(server.log) && server.outcomes == old(server.outcomes)
      ensures old(resultado).Some? ==>
        var items := old(resultado).value.alimentos;
        && posted == LeadingOk(old(server.outcomes), |items|)
        && server.log == old(server.log) + EntryPosts(items[..posted], SlotId(tipoComida))
        && server.outcomes == Drop(old(server.outcomes), if posted < |items| then posted + 1 else posted)
        && (posted == |items| ==> mensaje == "" && resultado.None? && error == old(error))
        && (posted < |items| ==>
              mensaje == old(mensaje) && resultado == old(resultado) && error == Some(AddingFailed))
      ensures server.nextId == old(server.nextId) && server.webProducts == old(server.webProducts)
      ensures server.aiAlimentos == old(server.aiAlimentos) && server.aiMensaje == old(server.aiMensaje)
    {
      posted := 0;
      if resultado.None? {
        return;
      }
      procesando := true;
      var items := resultado.value.alimentos;
      posted := PostEntries(server, items, SlotId(tipoComida));
      if posted == |items| {
        mensaje := "";
        resultado := None;
      } else {
        error := Some(AddingFailed);
      }
      procesando := false;
    }
  }

  // ---------------------------------------------------------------------
  // The panel's own example utterance.

  /** The first example the panel offers. */
  const Utterance := "Comí 2 huevos y 100g de pan"

  lemma UtteranceLowered()
    ensures Lower(Utterance) == Lowered
  {
  }

  /** The example utterance, lowered. */
  const Lowered := "comí 2 huevos y 100g de pan"

  /** After the `2`, the assistant's tail reaches `huevos`. */
  lemma EggsTailMatches(t: string)
    requires Lit(t, 7, "huevos") && SpaceRun(t, 6) == 1 && SpaceRun(t, 7) == 0
    ensures Matches(AssistantTail("huevos"), t, 6)
  {
    var r3: seq<Item> := [Word("huevos")] + [];
    var r2 := [Spaces(0)] + r3;
    var r1 := [OptWord(AssistantUnits)] + r2;
    WordTaken("huevos", [], t, 7);
    SpacesTaken(r3, t, 7, 7);
    UnitSkipped(AssistantUnits, r2, t, 7);
    SpacesTaken(r1, t, 6, 7);
    AssistantTailItems("huevos");
  }

  /** The pieces of the example after `2`: a space and `huevos`. */
  lemma EggsPieces(t: string)
    requires t == Lowered
    ensures Lit(t, 7, "huevos") && SpaceRun(t, 6) == 1 && SpaceRun(t, 7) == 0
  {
    assert t[7..13] == "huevos";
    OneSpace(t, 6);
  }

  /** A single white-space character before a word: the run at it is one
      long, and the run after it is empty. */
  lemma OneSpace(t: string, j: nat)
    requires j + 1 < |t| && IsSpace(t[j]) && !IsSpace(t[j + 1])
    ensures SpaceRun(t, j) == 1 && SpaceRun(t, j + 1) == 0
  {
  }

  /** The `2` is followed by a space, so no longer number token starts there. */
  lemma EggsTokenLongest(t: string, tail: seq<Item>)
    requires t == Lowered
    ensures forall e' :: 5 < e' <= |t| && e' > 6 && IsNumberToken(t[5..e']) ==> !Matches(tail, t, e')
  {
    forall e' | 5 < e' <= |t| && e' > 6
      ensures !IsNumberToken(t[5..e'])
    {
      TokenSecondChar(t[5..e']);
      assert t[5..e'][1] == ' ';
    }
  }

  /** Nothing before the `2` is a digit. */
  lemma NoDigitBefore(t: string, tail: seq<Item>)
    requires t == Lowered
    ensures forall s' :: 0 <= s' < 5 ==> !MatchAt(t, s', tail)
  {
    assert forall s' :: 0 <= s' < 5 ==> !IsDigit(t[s']);
  }

  /** The first pattern reads 2 for `huevos`. */
  lemma EggsRead(t: string)
    requires t == Lowered
    ensures Extract(t, AssistantTail("huevos")) == Some(2.0)
  {
    var tail := AssistantTail("huevos");
    assert t[5..6] == "2";
    assert IsNumberToken(t[5..6]);
    EggsPieces(t);
    EggsTailMatches(t);
    EggsTokenLongest(t, tail);
    NoDigitBefore(t, tail);
    ExtractSpec(t, tail, 5, 6);
    TwoValue();
  }

  lemma TwoValue()
    ensures IsNumberToken("2") && TokenValue("2") == 2.0
  {
    assert AllDigits("2");
    ParseFloatDigitLed("2");
    ParseDigits("2");
  }

  /** In the panel's own example the eggs are read as 2 in weight mode: the
      `g` of `100g` switches every food with a number to grams, so the
      commit logs 2 g of egg. */
  lemma EggsExample(f: Food)
    requires f.nombre == "huevos"
    ensures AssistantCandidate(Utterance, f) == Candidate(f.id, f, 2.0, Peso)
    ensures Grams(AssistantCandidate(Utterance, f)) == 2.0
  {
    UtteranceLowered();
    LowerHuevos(f.nombre);
    EggsRead(Lowered);
    LoweredMentionsGrams();
  }

  lemma LowerHuevos(nombre: string)
    requires nombre == "huevos"
    ensures Lower(nombre) == "huevos"
  {
  }

  /** The `g` of `100g`. */
  lemma LoweredMentionsGrams()
    ensures MentionsGrams(Lowered)
  {
    assert Occurs(Lowered, "g", 19);
  }

  // ---------------------------------------------------------------------
  // The same utterance in the floating chat.

  /** Every chat unit word starts with `g` or `m`. */
  lemma ChatUnitsInitials()
    ensures forall w :: w in ChatUnits ==> |w| >= 1 && (w[0] == 'g' || w[0] == 'm')
  {
  }

  /** The pieces of the example after `100`: the unit `g`, a space, `de`, a
      space and `pan`. */
  lemma PanPieces(t: string)
    requires t == Lowered
    ensures Lit(t, 19, "g") && Lit(t, 21, "de") && Lit(t, 24, "pan")
    ensures SpaceRun(t, 19) == 0 && SpaceRun(t, 20) == 1 && SpaceRun(t, 23) == 1
  {
    assert t[24..27] == "pan";
    assert t[21..23] == "de";
    assert t[19..20] == "g";
    OneSpace(t, 20);
    OneSpace(t, 23);
  }

  /** After `100`, the chat's tail reaches `pan` through the unit `g` and `de`. */
  lemma PanTailMatches(t: string)
    requires Lit(t, 19, "g") && Lit(t, 21, "de") && Lit(t, 24, "pan")
    requires SpaceRun(t, 19) == 0 && SpaceRun(t, 20) == 1 && SpaceRun(t, 23) == 1
    ensures Matches(ChatTail("pan"), t, 19)
  {
    var r4: seq<Item> := [Word("pan")] + [];
    var r3 := [OptDe] + r4;
    var r2 := [Spaces(0)] + r3;
    var r1 := [OptWord(ChatUnits)] + r2;
    WordTaken("pan", [], t, 24);
    DeTaken(r4, t, 21, 24);
    SpacesTaken(r3, t, 20, 21);
    UnitTaken(ChatUnits, "g", r2, t, 19);
    SpacesTaken(r1, t, 19, 19);
    ChatTailItems("pan");
  }

  /** No chat unit word starts with a character other than `g` or `m`. */
  lemma NoUnitLitAt(t: string, p: nat)
    requires p < |t| && t[p] != 'g' && t[p] != 'm'
    ensures forall w :: w in ChatUnits ==> !Lit(t, p, w)
  {
    forall w | w in ChatUnits ensures !Lit(t, p, w) {
      ChatUnitsInitials();
      assert |w| >= 1 && (w[0] == 'g' || w[0] == 'm');
    }
  }

  /** Neither `de` nor `pan` starts at a character other than `d` or `p`. */
  lemma DePanMissed(t: string, k: nat)
    requires k < |t| && t[k] != 'd' && t[k] != 'p'
    ensures !Matches([OptDe] + ([Word("pan")] + []), t, k)
  {
    assert !Lit(t, k, "pan") by {
      if k + 3 <= |t| {
        assert t[k..k + 3][0] == t[k];
      }
    }
    assert !Lit(t, k, "de") by {
      if k + 2 <= |t| {
        assert t[k..k + 2][0] == t[k];
      }
    }
    WordMissed("pan", [], t, k);
    DeMissed([Word("pan")] + [], t, k);
  }

  /** Nor, from `q`, the rest of the chat's tail, when the character at `q` is
      not `g` or `m` and none up to the end of its white space is `d` or `p`. */
  lemma UnitDePanMissed(t: string, q: nat)
    requires q < |t| && q + SpaceRun(t, q) < |t| && t[q] != 'g' && t[q] != 'm'
    requires forall k :: q <= k <= q + SpaceRun(t, q) ==> t[k] != 'd' && t[k] != 'p'
    ensures !Matches([OptWord(ChatUnits)] + ([Spaces(0)] + ([OptDe] + ([Word("pan")] + []))), t, q)
  {
    var r3 := [OptDe] + ([Word("pan")] + []);
    forall k | q <= k <= q + SpaceRun(t, q) ensures !Matches(r3, t, k) {
      DePanMissed(t, k);
    }
    SpacesMissed(r3, t, q);
    NoUnitLitAt(t, q);
    UnitMissed(ChatUnits, [Spaces(0)] + r3, t, q);
  }

  /** The pieces of the example after `2`: a space, then `h`. */
  lemma TwoPieces(t: string)
    requires t == Lowered
    ensures t[6] == ' ' && t[7] == 'h' && SpaceRun(t, 6) == 1 && SpaceRun(t, 7) == 0
    ensures IsDigit(t[5]) && NumberEnds(t, 5) == [6]
  {
    assert |t| == 27 && t[5] == '2' && t[6] == ' ' && t[7] == 'h';
    TwoFollowedBySpace(t);
  }

  lemma TwoFollowedBySpace(t: string)
    requires |t| == 27 && t[5] == '2' && t[6] == ' ' && t[7] == 'h'
    ensures SpaceRun(t, 6) == 1 && SpaceRun(t, 7) == 0 && NumberEnds(t, 5) == [6]
  {
    SingleDigitEnds(t, 5);
    OneSpace(t, 6);
  }

  /** The only digit before the `1` of `100` is the `2`. */
  lemma OnlyTwoBeforeHundred(t: string)
    requires t == Lowered
    ensures forall s' :: 0 <= s' < 16 && s' != 5 ==> !IsDigit(t[s'])
  {
  }

  /** A digit followed by something that is neither a digit nor a point is a
      number token on its own, and the only one there. */
  lemma SingleDigitEnds(t: string, i: nat)
    requires i + 1 < |t| && IsDigit(t[i]) && !IsDigit(t[i + 1]) && t[i + 1] != '.'
    ensures NumberEnds(t, i) == [i + 1]
  {
    assert DigitRun(t, i + 1) == 0;
    assert DigitRun(t, i) == 1;
  }

  /** After the `2` the chat's tail finds neither a unit, nor `de`, nor `pan`. */
  lemma PanMissedAfterTwo(t: string)
    requires 8 <= |t| && t[6] == ' ' && t[7] == 'h' && SpaceRun(t, 6) == 1 && SpaceRun(t, 7) == 0
    ensures !Matches(ChatTail("pan"), t, 6)
  {
    var r1 := [OptWord(ChatUnits)] + ([Spaces(0)] + ([OptDe] + ([Word("pan")] + [])));
    forall q | 6 <= q <= 6 + SpaceRun(t, 6) ensures !Matches(r1, t, q) {
      UnitDePanMissed(t, q);
    }
    SpacesMissed(r1, t, 6);
    ChatTailItems("pan");
  }

  /** No start before the `1` of `100` lets the chat's pattern match: the
      only earlier digit is the `2`, and `huevos` follows it. */
  lemma PanNoEarlierStart(t: string)
    requires t == Lowered
    ensures forall s' :: 0 <= s' < 16 ==> !MatchAt(t, s', ChatTail("pan"))
  {
    TwoPieces(t);
    OnlyTwoBeforeHundred(t);
    PanMissedAfterTwo(t);
  }

  /** The chat reads 100 for `pan`: `100` is the whole digit run. */
  lemma PanRead(t: string)
    requires t == Lowered
    ensures Extract(t, ChatTail("pan")) == Some(100.0)
  {
    var tail := ChatTail("pan");
    assert t[16..19] == "100";
    assert AllDigits("100");
    PanPieces(t);
    PanTailMatches(t);
    assert t[19] == 'g';
    TokenStopsAt(t, 16, 19);
    PanNoEarlierStart(t);
    ExtractSpec(t, tail, 16, 19);
    HundredValue();
  }

  /** No number token starting at `s` runs past a character that is neither a
      digit nor a point. */
  lemma TokenStopsAt(t: string, s: nat, k: nat)
    requires s <= k < |t| && !IsDigit(t[k]) && t[k] != '.'
    ensures forall e' :: k < e' <= |t| ==> !IsNumberToken(t[s..e'])
  {
    forall e' | k < e' <= |t| ensures !IsNumberToken(t[s..e']) {
      TokenChars(t[s..e'], k - s);
      assert t[s..e'][k - s] == t[k];
    }
  }

  lemma HundredValue()
    ensures IsNumberToken("100") && TokenValue("100") == 100.0
  {
    assert AllDigits("100");
    ParseFloatDigitLed("100");
    ParseDigits("100");
  }

  /** The example holds no standalone unit word: the `m` of `comí` is inside
      a word and the `g` of `100g` is glued to its digits. */
  lemma LoweredHasNoUnitWord(t: string)
    requires t == Lowered
    ensures !HasUnitWord(t)
  {
    assert forall p :: 0 <= p < |t| && p != 2 && p != 19 ==> t[p] != 'g' && t[p] != 'm';
    forall p | 0 <= p < |t| ensures !UnitWordAt(t, p, ChatUnits) {
      if p == 19 {
        GluedUnitIsNotWord(t, p);
      } else if p == 2 {
        assert IsWordChar(t[1]);
      } else {
        NoUnitLitAt(t, p);
      }
    }
  }

  /** The floating chat reads the panel's example differently: it logs pan as
      100 portions, because `100g` glued to its digits is not a standalone
      unit word, so no weight mode is switched on. */
  lemma ChatReadsPanAsPortions(f: Food)
    requires f.nombre == "pan"
    ensures Chatbot.ChatCandidate(Utterance, f) == Candidate(f.id, f, 100.0, Porcion)
  {
    UtteranceLowered();
    assert Lower(f.nombre) == "pan";
    PanRead(Lowered);
    LoweredHasNoUnitWord(Lowered);
  }
}
