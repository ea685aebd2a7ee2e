# macro-tracker front end, modelled in Dafny

This project models the logic of the macro-tracker React front end. That
front end is a daily food log with nutrient limits, a food catalog, meal
templates, a food search box and two text assistants. The model covers:

- the display rounding of nutrient values (`formatNutrient`, `formatNumber`);
- the floating chat (`ChatbotFlotante`):
  - it picks a meal slot from keywords;
  - it matches the utterance against the food and meal catalogs;
  - it reads quantities with its regular expressions;
  - it falls back to a web lookup;
  - it commits foods, meals and web products one request at a time;
- the assistant panel (`AsistenteIA`), with its own matcher, its own
  quantity reading, the remote fallback and its commit loop;
- the daily log (`RegistroDiario`):
  - percentages and progress colours, per day and per slot card;
  - the per-slot filters;
  - portion/gram conversion when an entry is added or edited;
  - the nutrient preview;
  - how a logged quantity is shown;
- the food search box (`BuscadorAlimentos`): its suggestions and its
  selection state machine;
- the food form (`AlimentosManager`, and the same form in `ComidasManager`)
  with its normalisation;
- the meal-template screen (`ComidasManager`);
- the limits form (`LimitesConfig`).

Layout:

- **Values** live in datatypes. JavaScript numbers are `JsNum` (`null`, NaN,
  or a real). `x || d` is `Or`. Forms hold `''` or a stored number.
- **Stateful components** become classes whose fields are the React state.
  Each handler is a method whose `ensures` gives the whole new state.
- **Behaviour to compare against** sits in pure functions (`Replies`,
  `LocalFoods`, `AssistantFoods`, `EntryPosts`, `EditStart`, `FoodBody`, …).
  Each loop (`detectarTipoComida`, `buscarLocalmente`, `procesarTexto`, the
  commit loops) is a method proved equal to one of these functions. Lemmas
  then state the properties of those functions.
- **The backend** is the class `Backend.Server`:
  - Each call succeeds or fails as a script (`outcomes`) says, so every
    failure pattern is covered.
  - Accepted requests are appended to `log`.
  - Creating calls return the server's `nextId`.
  - The web and AI lookups answer with fixed fields.
- **The regular expressions** become an explicit backtracking matcher
  (`Patterns`). It takes the leftmost start, then the longest number token
  whose tail matches.
- **`parseFloat`, `parseInt`, `toFixed`, `toString` and `toLowerCase`** are
  written out over strings (`Numbers`, `Text`).

Behaviour of the code worth knowing, each proved as stated:

- **The assistant's own example utterance "Comí 2 huevos y 100g de pan"**
  (`src/components/AsistenteIA.js:15`, `151`) is read differently by the two
  matchers.
  - The chat reads pan as 100 portions. `100g` glued to its digits is not a
    standalone unit word, so the mode stays `porcion`
    (`Asistente.ChatReadsPanAsPortions`).
  - The assistant reads the eggs as 2 g. Any letter `g` anywhere in the text
    switches every food that has a number to weight mode
    (`Asistente.EggsExample`).
- **A catalog food whose calories are `null`.** Loading it into the form and
  saving it unchanged builds a request object that carries NaN calories,
  because `isNaN(null)` is false and `parseFloat(null)` is NaN
  (`Alimentos.EditThenSave`). Serialised, that is sent as `null`. The browser
  only lets this through if the required calories input is bypassed.
- **Adding a food to a meal template before one is picked.** The request
  object carries a NaN food id, sent as `null`
  (`Comidas.UnpickedLinePostsNaN`).
- **An entry of less than a tenth of a portion.** The editor opens it as `0`
  portions. Saving it unchanged is then rejected
  (`Registro.EditTinyEntryRejected`).
- **The chat's simpler second pattern never decides a quantity.** It is only
  tried after the first pattern fails, and everything it matches the first
  pattern matches too. The same holds for the assistant's fallback pattern.

## Model

| member | source | states |
|---|---|---|
| Format.FormatNutrientInvalid | src/utils.js:11-14 | `null`/NaN format as `"0"`, for `formatNutrient` and `formatNumber(v, 1)` |
| Format.SmallValueBound | src/utils.js:19-22 | below 1 in magnitude the shown value is the ceiling to tenths: never below `x`, less than 0.1 above it |
| Format.SmallPositiveShowsTenth | src/utils.js:2-3 | every 0 < x < 1 shows at least one tenth |
| Format.LargeValueBound | src/utils.js:25-28 | from 1 on, the shown value is within 0.05 of `x`, ties going up |
| Format.FormatNutrientValue | src/utils.js:16-28 | the text read back with `parseFloat` is exactly the rounded number of tenths |
| Format.FormatNutrientShape | src/utils.js:22 | every number is written with exactly one digit after a single point |
| Format.FormatNutrientExamples | src/utils.js:2-3 | 0.4 → "0.4", 0.04 → "0.1", 0.96 → "1.0", 1 → "1.0", 1.05 → "1.1", -0.04 → "0.0" |
| Format.ExampleText | src/utils.js:19-28 | the text written for a value with known rounded tenths |
| Format.FormatNumberOneDecimal | src/utils.js:35-51 | `formatNumber(v, 1)` equals `formatNutrient(v)` for every `v` |
| Format.FormatNumberSmall | src/utils.js:43-46 | below 1, `formatNumber` still rounds up to tenths whatever `decimals` is |
| Format.FormatNumberLarge | src/utils.js:48-50 | from 1 on, `formatNumber` writes `x` rounded to `decimals` places |
| Format.RoundToPlacesBound | src/utils.js:49 | rounding to `d` places moves a value by at most half a unit in the last place |
| Numbers.ToFixedRoundTrip | src/utils.js:22 | `parseFloat(x.toFixed(d))` is `x` rounded to `d` decimals |
| Numbers.ToFixedShape | src/utils.js:28 | `toFixed(d)` writes exactly `d` digits after one point |
| Numbers.NatToStringRoundTrip | src/components/BuscadorAlimentos.js:14 | `parseInt`/`parseFloat` of `n.toString()` give `n` back |
| Numbers.Ceil | src/utils.js:21 | `Math.ceil`: the least integer not below `y` |
| Numbers.NatToString | src/components/BuscadorAlimentos.js:59 | `n.toString()` is a non-empty run of digits whose decimal value is `n` |
| Numbers.ParseRender | src/utils.js:22 | `parseFloat` reads back the number a fixed-point text stands for |
| Text.Lower | src/components/ChatbotFlotante.js:41 | `toLowerCase` keeps the length and lowers each character |
| Text.Includes | src/components/ChatbotFlotante.js:63 | `includes` holds exactly when the word occurs at some index |
| Text.FirstToken | src/components/ChatbotFlotante.js:106 | `split(' ')[0]` is the prefix before the first space, with no space in it |
| Text.IncludesTransitive | src/components/ChatbotFlotante.js:56-57 | a text containing `w` contains every part of `w` |
| Text.LowerIdempotent | src/components/ChatbotFlotante.js:105-106 | lowering twice changes nothing, so a lowered name is compared as it is |
| Domain.PortionWeight | src/components/ChatbotFlotante.js:225 | `peso_porcion \|\| 100` is never 0 |
| Chatbot.DetectarTipoComida | src/components/ChatbotFlotante.js:40-68 | the keyword loop returns the slot of the keyword table for the lowered text |
| Chatbot.DetectFirstKeyword | src/components/ChatbotFlotante.js:62-66 | the first keyword, in table order, that the text contains decides the slot |
| Chatbot.DetectExtra | src/components/ChatbotFlotante.js:67 | the slot is `extra` exactly when the text contains no keyword |
| Chatbot.SlotFromExtra | src/components/ChatbotFlotante.js:62-67 | the keyword scan from any point ends in `extra` exactly when no later keyword occurs |
| Chatbot.SnacksKeywordShadowed | src/components/ChatbotFlotante.js:56-66 | a text with `snacks` contains `snack` (entry 13), so the scan always stops at entry 13 or earlier and the `snacks` entry never decides |
| Chatbot.FirstKeywordBy | src/components/ChatbotFlotante.js:62-66 | a text containing keyword `b` has a first keyword at or before `b` |
| Chatbot.BuscarLocalmente | src/components/ChatbotFlotante.js:98-144 | the two loops return exactly `LocalFoods` and `LocalMeals` |
| Chatbot.FoodsFound | src/components/ChatbotFlotante.js:104-133 | the food loop pushes one candidate per matching food, in catalog order |
| Chatbot.MealsFound | src/components/ChatbotFlotante.js:136-141 | the meal loop pushes every matching template, in catalog order |
| Chatbot.LocalFoodsMembership | src/components/ChatbotFlotante.js:104-106 | a candidate is found exactly for a catalog food whose name contains, or is contained by the first word of, the utterance |
| Chatbot.LocalMealsMembership | src/components/ChatbotFlotante.js:136-139 | a template is found exactly when it is in the catalog and its name matches by the same rule |
| Chatbot.LeadingSpaceMatchesAll | src/components/ChatbotFlotante.js:106 | an utterance starting with a space matches every food |
| Chatbot.ReadCandidate | src/components/ChatbotFlotante.js:107-131 | the pattern loop builds the candidate `ChatCandidate` describes |
| Chatbot.ChatQuantityFirstPattern | src/components/ChatbotFlotante.js:110-124 | the second pattern never decides the quantity |
| Chatbot.ChatCandidateDefault | src/components/ChatbotFlotante.js:107-108 | a food matched only by the first-word rule keeps one portion |
| Chatbot.ChatCandidateQuantity | src/components/ChatbotFlotante.js:117-121 | a number read by the pattern is the quantity, and the mode is weight exactly when the utterance holds a standalone unit word |
| Chatbot.ChatWeightNeedsNumber | src/components/ChatbotFlotante.js:115-122 | weight mode needs both a number and a unit word |
| Chatbot.Shown | src/components/ChatbotFlotante.js:203-204 | a figure shows as N/A exactly when it is falsy |
| Chatbot.SlotLabel | src/components/ChatbotFlotante.js:179 | the " como slot" label is empty exactly for `extra` |
| Chatbot.Lines | src/components/ChatbotFlotante.js:172-177 | one line per found food with its name, quantity and mode |
| Chatbot.WebReplies | src/components/ChatbotFlotante.js:192-218 | one message per web product, or the single no-match message |
| Chatbot.RepliesLocal | src/components/ChatbotFlotante.js:82-83 | with local results the answer is `mostrarResultadosLocales` |
| Chatbot.RepliesWeb | src/components/ChatbotFlotante.js:84-89 | without them the answer is the web notice followed by the web results |
| Chatbot.LocalIgnoresWeb | src/components/ChatbotFlotante.js:82-89 | the web answer does not matter when something was found locally |
| Chatbot.LocalRepliesNoWebNotice | src/components/ChatbotFlotante.js:187-189 | the web notice inside `mostrarResultadosLocales` is never shown |
| Chatbot.LocalRepliesBodies | src/components/ChatbotFlotante.js:159-190 | the replies built from local results never contain the web notice |
| Chatbot.LocalRepliesOfferFoods | src/components/ChatbotFlotante.js:180-184 | the found foods come as one button that adds all of them to the detected slot |
| Chatbot.WebFailureIsNoMatch | src/components/ChatbotFlotante.js:153-156 | a failed web lookup is answered like an empty one |
| Chatbot.Answer | src/components/ChatbotFlotante.js:75-89 | the answer is `Replies`; the web is called only when nothing was found locally |
| Chatbot.ProductFood | src/components/ChatbotFlotante.js:265-273 | a web product is saved with falsy figures as 0 and a portion weight that is never 0 |
| Chatbot.ProductLogsOnePortion | src/components/ChatbotFlotante.js:276-281 | a web product is logged as exactly one portion of the food created from it |
| Chatbot.Chat.constructor | src/components/ChatbotFlotante.js:8-16 | closed, with the greeting only, an empty input and nothing in flight |
| Chatbot.Chat.SetOpen | src/components/ChatbotFlotante.js:323 | the buttons open and close the panel and change nothing else |
| Chatbot.Chat.HandleInputChange | src/components/ChatbotFlotante.js:468 | typing sets the input only |
| Chatbot.Chat.AgregarMensaje | src/components/ChatbotFlotante.js:30-38 | appends exactly one message |
| Chatbot.Chat.HandleSubmit | src/components/ChatbotFlotante.js:311-315 | a blank input, or one sent while busy, changes nothing; otherwise the echo then the answer are appended |
| Chatbot.Chat.ProcesarMensaje | src/components/ChatbotFlotante.js:70-96 | echo, clear the input, answer, and `procesando` ends false |
| Chatbot.Chat.AgregarAlimentos | src/components/ChatbotFlotante.js:220-243 | posts each item's grams in order until the first failure; the success message only when all were posted |
| Chatbot.Chat.AgregarComida | src/components/ChatbotFlotante.js:245-260 | logs the template into the slot, with the success or failure message |
| Chatbot.Chat.AgregarProductoWeb | src/components/ChatbotFlotante.js:262-290 | creates the food, then logs one portion under the new id; nothing is logged when creation fails |
| Chatbot.Chat.GuardarProductoEnAlimentos | src/components/ChatbotFlotante.js:292-309 | saves the product as a food, with the message for the outcome |
| Chatbot.Chat.Perform | src/components/ChatbotFlotante.js:432-435 | a button press appends exactly one message and keeps the earlier ones |
| Patterns.MatchesBetween | src/components/ChatbotFlotante.js:111 | `\s*` matches when the rest matches after some amount of white space |
| Patterns.NumberEnds | src/components/ChatbotFlotante.js:111 | the ends of `\d+(?:\.\d+)?` at a start, in the order the engine tries them |
| Patterns.SearchSpec | src/components/ChatbotFlotante.js:116 | the search finds the leftmost start where the pattern matches, with the longest number whose tail matches |
| Patterns.ExtractNone | src/components/ChatbotFlotante.js:116-117 | nothing is read exactly when the pattern matches at no start |
| Patterns.ExtractSpec | src/components/ChatbotFlotante.js:116-118 | what is read is the value of the longest token at the leftmost matching start |
| Patterns.TokenParses | src/components/ChatbotFlotante.js:118 | `parseFloat` of a number token is its value |
| Patterns.SimpleImpliesChat | src/components/ChatbotFlotante.js:111-112 | a match of `\s+name` is a match of the chat's first tail |
| Patterns.SimpleNeverDecidesChat | src/components/ChatbotFlotante.js:115-124 | when the chat's first pattern fails the second fails too |
| Patterns.SimpleImpliesAssistant | src/components/AsistenteIA.js:29-39 | a match of `\s+name` is a match of the assistant's tail |
| Patterns.SimpleNeverDecidesAssistant | src/components/AsistenteIA.js:37-43 | the assistant's fallback pattern never reads a number |
| Patterns.ChatNeedsName | src/components/ChatbotFlotante.js:111 | the chat's pattern only matches a text containing the name |
| Patterns.ChatMatchHasName | src/components/ChatbotFlotante.js:111 | at any start where the chat pattern matches, the text contains the name |
| Patterns.MatchesFindsWord | src/components/ChatbotFlotante.js:111-112 | a pattern ending in a literal word matches only where that word occurs further on |
| Patterns.GluedUnitIsNotWord | src/components/ChatbotFlotante.js:119 | a unit glued to digits (`100g`) is not a standalone unit word |
| Asistente.MentionsGramsIsLetterG | src/components/AsistenteIA.js:34 | the weight test hangs on the letter `g` alone |
| Asistente.AssistantQuantity | src/components/AsistenteIA.js:25-43 | the quantity is the first pattern's number, or 1 |
| Asistente.AssistantMode | src/components/AsistenteIA.js:32-36 | weight mode exactly when the first pattern read a number and the text contains `g` |
| Asistente.AssistantModeShared | src/components/AsistenteIA.js:34-36 | the mode belongs to the utterance: foods with numbers all get the same mode |
| Asistente.AssistantFoodsAreMentioned | src/components/AsistenteIA.js:21-23 | one candidate per food whose name the text contains, in catalog order |
| Asistente.ProcesarTexto | src/components/AsistenteIA.js:13-56 | the loop returns exactly `AssistantFoods` |
| Asistente.ReadQuantity | src/components/AsistenteIA.js:25-51 | the loop body builds `AssistantCandidate` |
| Asistente.Submitted | src/components/AsistenteIA.js:70-94 | a result or an error, never both; the local result if any, else the remote list, "be more specific" for an empty one, the generic error on failure |
| Asistente.Panel.constructor | src/components/AsistenteIA.js:8-11 | empty text, no result, no error |
| Asistente.Panel.SetMensaje | src/components/AsistenteIA.js:164 | typing sets the text only |
| Asistente.Panel.Cancelar | src/components/AsistenteIA.js:246-252 | drops the result and the text |
| Asistente.Panel.HandleSubmit | src/components/AsistenteIA.js:58-98 | a blank text changes nothing; a local result means no remote call; otherwise the outcome is `Submitted`; nothing stays in flight |
| Asistente.Panel.HandleAgregarTodos | src/components/AsistenteIA.js:100-135 | posts every food's grams in order until the first failure, consuming one server outcome per post tried; success clears the text and result, failure keeps the result and sets the error |
| Asistente.EggsExample | src/components/AsistenteIA.js:151 | in the panel's own example the eggs are read as 2 in weight mode, i.e. 2 g |
| Asistente.ChatReadsPanAsPortions | src/components/ChatbotFlotante.js:107-124 | the floating chat reads the same utterance's pan as 100 portions: the number before `g de pan` is found, and the glued `g` is no standalone unit word |
| Backend.Server.Send | src/components/LimitesConfig.js:35 | a call succeeds as the script says, and only accepted requests are recorded |
| Backend.Server.Create | src/components/ComidasManager.js:95-96 | a successful creation returns a fresh id |
| Backend.LeadingOkAll | src/components/ChatbotFlotante.js:222-234 | all `n` calls succeed exactly when the script has no failure among its first `n` outcomes |
| Backend.LeadingOkStops | src/components/ChatbotFlotante.js:240-242 | when fewer than `n` succeed, the next call is a failure |
| Backend.EntryPosts | src/components/ChatbotFlotante.js:222-234 | one post per item, in order, with its food and its grams |
| Backend.PostEntries | src/components/AsistenteIA.js:106-119 | the awaited loop posts the leading successes and stops at the first failure; earlier posts stay |
| Registro.Percent | src/components/RegistroDiario.js:286-289 | at most 100, and 0 without a usable limit |
| Registro.PercentOfPositiveLimit | src/components/RegistroDiario.js:286-289 | within [0, 100] for a non-negative intake; 100 exactly when the intake reaches the limit |
| Registro.ColorOfIntake | src/components/RegistroDiario.js:291-295 | red from the limit on, amber from 80% of it, plain below |
| Registro.NoLimitStaysPlain | src/components/RegistroDiario.js:287 | without a usable limit every bar stays plain |
| Registro.Quarter | src/components/RegistroDiario.js:428 | a quarter limit is usable exactly when the limit is |
| Registro.CardIsFourTimes | src/components/RegistroDiario.js:428-446 | a card's percentage is the day's percentage of four times the slot total |
| Registro.CardDanger | src/components/RegistroDiario.js:428 | a card turns red once its slot reaches a quarter of the limit |
| Registro.RegistrosPorComida | src/components/RegistroDiario.js:271-273 | every listed entry belongs to the slot |
| Registro.RegistrosPorComidaMembership | src/components/RegistroDiario.js:271-273 | an entry is listed exactly when it belongs to the slot |
| Registro.CardsListEveryEntryOnce | src/components/RegistroDiario.js:271-273 | with valid slot ids the six cards list every entry exactly once |
| Registro.ResumenPorComida | src/components/RegistroDiario.js:275-284 | all zeros when the backend sent no summary for the slot |
| Registro.ResumenPorComidaFirst | src/components/RegistroDiario.js:276 | the first summary of the slot is used |
| Registro.GramsForIsGrams | src/components/RegistroDiario.js:131-141 | the add form converts portions to grams exactly as the chat and the assistant do |
| Registro.PreviewFactorIsPortions | src/components/RegistroDiario.js:566-571 | in portion mode the factor is the portions typed; in weight mode grams over portion weight |
| Registro.PreviewOfPortions | src/components/RegistroDiario.js:566-575 | in portion mode the preview is the food's values times the portions |
| Registro.PortionsText | src/components/RegistroDiario.js:306 | "es" is appended exactly when the count is not 1 |
| Registro.FormatearCantidad | src/components/RegistroDiario.js:297-299 | the raw quantity, `registro.cantidad` itself, exactly for an unknown food |
| Registro.FormatearCantidadPortions | src/components/RegistroDiario.js:305-306 | within 0.01 of a whole number of portions, that number of portions is shown |
| Registro.PortionsShownAreClose | src/components/RegistroDiario.js:305 | the portions shown are within a hundredth of a portion of the grams |
| Registro.FormatearCantidadGrams | src/components/RegistroDiario.js:309 | otherwise the grams with one decimal and a `g` |
| Registro.UpdatedGrams | src/components/RegistroDiario.js:203-214 | rejected exactly when the quantity is NaN or not above 0 |
| Registro.UpdatedGramsAccepted | src/components/RegistroDiario.js:203-214 | a valid quantity becomes the grams of the candidate when the entry's food is known (portions times the portion weight), and is taken as grams whatever the mode when it is not |
| Registro.EditUnchanged | src/components/RegistroDiario.js:169-191 | saving an opened entry unchanged: same grams in weight mode; within a tenth of a portion in portion mode |
| Registro.EditTinyEntryRejected | src/components/RegistroDiario.js:175-179 | an entry under a tenth of a portion opens as 0 portions and saving it is rejected |
| Registro.FixedTextReadsBack | src/components/RegistroDiario.js:698-701 | the converted text reads back as the rounded number |
| Registro.SwitchToPortions | src/components/RegistroDiario.js:696-698 | grams to portions: the text reads back as the portions to two decimals |
| Registro.SwitchToGrams | src/components/RegistroDiario.js:699-701 | portions to grams: the text reads back as the grams to one decimal |
| Registro.SwitchToSameMode | src/components/RegistroDiario.js:690-706 | choosing the current mode changes nothing |
| Registro.SubmitRequest | src/components/RegistroDiario.js:125-148 | a post exactly when the food is known, for the form's slot |
| Registro.SubmitPortions | src/components/RegistroDiario.js:138-141 | portion mode posts the portions times the portion weight |
| Registro.DailyLog.constructor | src/components/RegistroDiario.js:20-40 | closed forms, blank add and edit forms |
| Registro.DailyLog.HandleAgregarAlimento | src/components/RegistroDiario.js:86-90 | opens a blank add form for the slot |
| Registro.DailyLog.SetAddMode | src/components/RegistroDiario.js:537 | choosing the mode also clears the quantity |
| Registro.DailyLog.SetAddFields | src/components/RegistroDiario.js:520-523 | picking a food or typing a quantity changes only that field |
| Registro.DailyLog.HandleSubmit | src/components/RegistroDiario.js:122-157 | an unknown food posts nothing; otherwise one post in grams, and the form closes and clears on success |
| Registro.DailyLog.HandleEditarRegistro | src/components/RegistroDiario.js:159-193 | an entry without id is refused; otherwise the editor opens with `EditStart` |
| Registro.DailyLog.ChangeEditMode | src/components/RegistroDiario.js:690-706 | the editor takes `SwitchEditMode` of the entry's food |
| Registro.DailyLog.SetEditCantidad | src/components/RegistroDiario.js:724 | typing sets the editor's quantity only |
| Registro.DailyLog.CancelEdit | src/components/RegistroDiario.js:759-763 | closes and clears the editor |
| Registro.DailyLog.CloseEdit | src/components/RegistroDiario.js:678-682 | the × button and the backdrop hide the editor but keep the entry and its form |
| Registro.DailyLog.HandleActualizarRegistro | src/components/RegistroDiario.js:195-256 | nothing sent without an entry or a valid quantity; otherwise the new grams are put, and the editor closes on success |
| Buscador.FoodById | src/components/BuscadorAlimentos.js:14 | `find` by id: a catalog food with that id, or none exactly when no food has it |
| Buscador.SelectionLookup | src/components/BuscadorAlimentos.js:14 | `parseInt` of a reported id finds the food with that id; `""` finds none |
| Buscador.ReportedIdFindsFood | src/components/BuscadorAlimentos.js:58-60 | with unique ids, the id a food is reported as finds that food |
| Buscador.Sugerencias | src/components/BuscadorAlimentos.js:38-40 | at most 10 suggestions, each containing the query |
| Buscador.SugerenciasMembership | src/components/BuscadorAlimentos.js:38-40 | suggestions are catalog foods containing the query, and all of them when at most 10 match |
| Buscador.EmptyQuerySuggestsFirstTen | src/components/BuscadorAlimentos.js:38-40 | an empty query suggests the first ten foods |
| Buscador.NameFindsItself | src/components/BuscadorAlimentos.js:39 | a food's own name finds it |
| Buscador.SearchBox.constructor | src/components/BuscadorAlimentos.js:5-7 | empty query, list closed, nothing selected |
| Buscador.SearchBox.Visible | src/components/BuscadorAlimentos.js:94 | suggestions show only with the flag set and a non-empty query, at most 10 |
| Buscador.SearchBox.Sync | src/components/BuscadorAlimentos.js:11-23 | a value naming a food shows it, an empty value clears, an unknown one changes nothing |
| Buscador.SearchBox.HandleInputChange | src/components/BuscadorAlimentos.js:42-51 | typing sets the query, opens the list, drops the selection, reports `''` |
| Buscador.SearchBox.HandleSeleccionar | src/components/BuscadorAlimentos.js:53-67 | picking shows the name, keeps the food, closes the list, reports its id |
| Buscador.SearchBox.HandleFocus | src/components/BuscadorAlimentos.js:69-73 | focus reopens the list only for a non-empty query |
| Buscador.SelectThenSync | src/components/BuscadorAlimentos.js:11-23 | picking a food and receiving its id back leaves the box showing that food |
| Buscador.TypeThenSync | src/components/BuscadorAlimentos.js:11-23 | typing after a food was picked reports `''`, the parent's value changes and the effect clears the text just typed; with nothing picked the typed text stays |
| FoodForms.Stored | src/components/AlimentosManager.js:40 | `''` stays blank, anything else is stored as a number |
| FoodForms.WithFieldChangesOnlyThatField | src/components/AlimentosManager.js:36-42 | a change sets only its own field |
| FoodForms.NormalizedCases | src/components/AlimentosManager.js:50-55 | blank or NaN becomes the default, a number is kept, `null` becomes NaN |
| FoodForms.TypedValueSent | src/components/AlimentosManager.js:40-55 | what is typed is sent: its number, else the default |
| FoodForms.TypingKeepsNoNullField | src/components/AlimentosManager.js:36-42 | the blank form and typing never put `null` in a field |
| FoodForms.NoNullFieldSendsNumbers | src/components/AlimentosManager.js:48-56 | a form without `null` sends a number for every nutrient |
| FoodForms.BlankFormBody | src/components/AlimentosManager.js:100-109 | the body built from the untouched blank form is zeros with a 100 g portion (the browser's required name and calories inputs would block that submit) |
| Alimentos.Blankable | src/components/AlimentosManager.js:78-81 | a falsy nutrient opens as a blank input |
| Alimentos.EditThenSave | src/components/AlimentosManager.js:73-85 | saving an opened food unchanged: falsy nutrients go as 0, falsy portion as 100, and `null` calories put NaN in the request object (sent as `null`) |
| Alimentos.EditThenSaveKeepsFood | src/components/AlimentosManager.js:73-85 | a fully numeric food with a set portion weight comes back unchanged |
| Alimentos.SaveRequest | src/components/AlimentosManager.js:58-62 | PUT to the edited food's id, otherwise POST, with the normalised body |
| Alimentos.FoodsManager.constructor | src/components/AlimentosManager.js:12-20 | closed dialog, no edit target, blank form |
| Alimentos.FoodsManager.HandleInputChange | src/components/AlimentosManager.js:36-42 | the field change rule on the form |
| Alimentos.FoodsManager.ResetForm | src/components/AlimentosManager.js:100-111 | blank form and no edit target |
| Alimentos.FoodsManager.OpenNew | src/components/AlimentosManager.js:120-123 | a blank form in an open dialog |
| Alimentos.FoodsManager.HandleEdit | src/components/AlimentosManager.js:73-85 | the food becomes the target and fills the form |
| Alimentos.FoodsManager.HandleSubmit | src/components/AlimentosManager.js:44-71 | sends `SaveRequest`; success resets and closes, failure changes nothing |
| Alimentos.EditAndSave | src/components/AlimentosManager.js:73-85 | editing and saving at once sends the food's own values to its id |
| Comidas.EditFormOf | src/components/ComidasManager.js:154-159 | the name, and the description or `''` |
| Comidas.LineRequest | src/components/ComidasManager.js:118-128 | a post exactly for a quantity that is a number above 0, sent as entered with its mode |
| Comidas.PickedLinePosted | src/components/ComidasManager.js:124-128 | a picked food and a whole quantity post exactly that food, quantity and mode |
| Comidas.UnpickedLinePostsNaN | src/components/ComidasManager.js:125 | with no food picked a valid line's request object carries a NaN food id (sent as `null`) |
| Comidas.EmptyQuantityRejected | src/components/ComidasManager.js:118-121 | an empty quantity is rejected |
| Comidas.TotalTextCases | src/components/ComidasManager.js:370-379 | a missing total shows "0.0", a set one as `formatNutrient` writes it |
| Comidas.LineText | src/components/ComidasManager.js:400-402 | the quantity text, followed by its unit |
| Comidas.LineTextShowsMode | src/components/ComidasManager.js:400-402 | a line ends in `g` exactly in weight mode |
| Comidas.MealsManager.constructor | src/components/ComidasManager.js:7-30 | every dialog closed, blank forms, nothing loaded |
| Comidas.MealsManager.HandleInputChange | src/components/ComidasManager.js:71-77 | sets one field of the template form |
| Comidas.MealsManager.HandleAlimentoInputChange | src/components/ComidasManager.js:79-85 | sets one field of the add-food form |
| Comidas.MealsManager.HandleNuevoAlimentoInputChange | src/components/ComidasManager.js:185-191 | the food form's change rule |
| Comidas.MealsManager.ResetForm | src/components/ComidasManager.js:177-183 | blank template form and no edit target |
| Comidas.MealsManager.OpenNew | src/components/ComidasManager.js:256-258 | a blank template form in an open dialog |
| Comidas.MealsManager.HandleEdit | src/components/ComidasManager.js:154-162 | fills the form, closes the detail, opens the form |
| Comidas.MealsManager.FetchComidaDetalle | src/components/ComidasManager.js:60-69 | loads and shows the detail; a failed load changes nothing |
| Comidas.MealsManager.HandleSubmit | src/components/ComidasManager.js:87-111 | PUT keeping the id or POST taking the new one; failure changes nothing; success resets and closes; only a new template with a non-zero id then has its detail loaded, logged as one GET and shown when it succeeds |
| Comidas.MealsManager.HandleAgregarAlimento | src/components/ComidasManager.js:113-137 | no detail or an invalid quantity sends nothing; otherwise the line is posted; on success the detail is reloaded (one GET, shown when it succeeds) and the form cleared; a failed post changes nothing else |
| Comidas.MealsManager.HandleCrearAlimento | src/components/ComidasManager.js:193-235 | creates the normalised food; on success it is picked by id, the dialog closes and the form clears |
| Limites.WithDefaults | src/components/LimitesConfig.js:8-13 | no limit is left at 0 |
| Limites.WithDefaultsCases | src/components/LimitesConfig.js:8-13 | a set limit is kept, an unset one takes 2000, 65, 300 or 150; defaulting twice changes nothing |
| Limites.Entered | src/components/LimitesConfig.js:28 | a non-zero value is the parsed number; anything unparsable is 0 |
| Limites.EnteredReadsBack | src/components/LimitesConfig.js:24-30 | a whole number typed is stored as itself; empty input as 0 |
| Limites.LimitsForm.constructor | src/components/LimitesConfig.js:8-13 | the form starts as the defaulted limits |
| Limites.LimitsForm.Sync | src/components/LimitesConfig.js:15-22 | a new `limites` is defaulted again |
| Limites.LimitsForm.HandleInputChange | src/components/LimitesConfig.js:24-30 | one field takes the entered value, the rest stay |
| Limites.LimitsForm.HandleSubmit | src/components/LimitesConfig.js:32-42 | the whole form is put; `onUpdate` only after success |
| Limites.SaveThenSync | src/components/LimitesConfig.js:15-42 | saving and receiving the saved limits back leaves a form without zeros unchanged |

## Left out

- The HTTP layer (`axios`) and the backend are the `Server` class: each call succeeds or fails as scripted. The backend's own code is not part of this model, including the day, slot and template totals it computes.
- The list refreshes after a change (`fetchRegistros`, `fetchAlimentos`, `fetchComidas`, `onRefresh`, `onUpdate`, `onAgregarAlimento`) are left out or counted: they only reload server data.
- Deletions (`handleDelete`, `handleEliminarAlimento`, `handleEliminarRegistro`) and the meal-logging form of the daily log are left out: a confirm dialog and one request each, with no logic.
- `alert`, `confirm`, rendering, focus and scroll effects, and the document mouse listener of the search box are left out: they carry no logic.
- Timestamps (`new Date()`), `src/config.js` and `src/App.js` are not part of this model.
- Numbers are reals. IEEE-754 rounding, infinities and exponent notation are not modelled.
- `parseFloat` and `parseInt` cover decimal text only. `toFixed` is modelled below 1e21 only.
- `toLowerCase` covers ASCII and the Latin-1 capitals.
- Food names are matched literally: regex metacharacters in a food name are not modelled.
- Number-to-text conversion inside chat messages is not modelled: messages keep their numbers as values.
- Comidas.LineText: takes the quantity's text as a parameter, because `Number.prototype.toString` of a real is not modelled.
- Chatbot.Chat.Perform: states only that one message is appended. Each operation it dispatches states its own outcome in full.
- Server answers are assumed well-formed. A response without the expected fields is not modelled.
- The `select` of food ids in the daily log's add form is `Option<nat>`, the id the search box reports.
- A template's loaded detail is held by its id: its contents are server data.
- Requests are the JS objects handed to `axios`; JSON serialisation (NaN → `null`) is not modelled.
- HTML constraint validation (`required`, `min`, `step`, `type=number`) is not modelled: handlers are modelled on every input, including ones the browser would block.
- Concurrency is not modelled: calls run one after another. In `handleAgregarAlimento` the reload of the template's detail is not awaited, so in the browser it may finish after the form is cleared; the model completes it first.
- The `fecha` date that entry, web-search and assistant requests carry is not modelled: `Backend.Request` has no date field. The page only passes the date through; it takes no part in any decision modelled here.
