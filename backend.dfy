/** The backend as the components see it: every HTTP call either succeeds or
    fails, and the server keeps the requests it accepted. Which calls fail is
    a script fixed up front, so every sequence of failures is covered. */
module Backend {
  import opened Js
  import opened Domain

  /** The body of a food the front end creates or updates. */
  datatype FoodData = FoodData(nombre: string, calorias: JsNum, grasas: JsNum,
                               carbohidratos: JsNum, proteinas: JsNum, sodio: JsNum,
                               pesoPorcion: JsNum)

  /** A product found by the web lookup. `nota` is `""` when there is none. */
  datatype Product = Product(nombre: string, calorias: JsNum, grasas: JsNum,
                             carbohidratos: JsNum, proteinas: JsNum, sodio: JsNum,
                             pesoPorcion: JsNum, fuente: string, nota: string)

  /** The requests the components issue. */
  datatype Request =
    | PostRegistro(tipoComida: string, alimentoId: nat, cantidad: JsNum)
    | PostRegistroComida(tipoComida: string, comidaId: nat)
    | PutRegistro(registroId: nat, cantidad: JsNum)
    | PostAlimento(data: FoodData)
    | PutAlimento(alimentoId: nat, data: FoodData)
    | PostComida(nombre: string, descripcion: string)
    | PutComida(comidaId: nat, nombre: string, descripcion: string)
    | PostLinea(comidaId: nat, lineaAlimento: JsNum, lineaCantidad: real, modo: Mode)
    | GetComida(comidaId: nat)
    | PutLimites(calorias: real, grasas: real, carbohidratos: real, proteinas: real)
    | BuscarWeb(query: string)
    | PostProcesar(texto: string, tipoComida: string)

  /** Whether the next call succeeds: an exhausted script means success. */
  function NextOk(outcomes: seq<bool>): bool {
    outcomes == [] || outcomes[0]
  }

  /** The script after `j` calls. */
  function Drop(outcomes: seq<bool>, j: nat): (r: seq<bool>)
    ensures |r| == if j <= |outcomes| then |outcomes| - j else 0
  {
    if j <= |outcomes| then outcomes[j..] else []
  }

  /** One more call consumes one more outcome. */
  lemma DropStep(outcomes: seq<bool>, j: nat)
    ensures Drop(Drop(outcomes, j), 1) == Drop(outcomes, j + 1)
  {
  }

  /** How many of `n` calls in a row succeed before the first failure. */
  function LeadingOk(outcomes: seq<bool>, n: nat): (k: nat)
    ensures k <= n
  {
    if n == 0 then 0
    else if outcomes == [] then n
    else if outcomes[0] then 1 + LeadingOk(outcomes[1..], n - 1)
    else 0
  }

  /** All `n` calls succeed exactly when the script has no failure among its
      first `n` outcomes. */
  lemma {:induction false} LeadingOkAll(outcomes: seq<bool>, n: nat)
    ensures LeadingOk(outcomes, n) == n <==> forall i :: 0 <= i < n && i < |outcomes| ==> outcomes[i]
  {
    if n > 0 && outcomes != [] {
      LeadingOkAll(outcomes[1..], n - 1);
      if outcomes[0] {
        assert forall i :: 1 <= i < n && i < |outcomes| ==> outcomes[i] == outcomes[1..][i - 1];
      }
    }
  }

  /** When fewer than `n` calls succeed, the call right after them is a failure. */
  lemma {:induction false} LeadingOkStops(outcomes: seq<bool>, n: nat)
    requires LeadingOk(outcomes, n) < n
    ensures var k := LeadingOk(outcomes, n); k < |outcomes| && !outcomes[k]
  {
    if outcomes[0] {
      LeadingOkStops(outcomes[1..], n - 1);
    }
  }

  /** One more successful call extends a run of successes. */
  lemma {:induction false} LeadingOkStep(outcomes: seq<bool>, k: nat)
    requires LeadingOk(outcomes, k) == k
    ensures NextOk(Drop(outcomes, k)) ==> LeadingOk(outcomes, k + 1) == k + 1
    ensures !NextOk(Drop(outcomes, k)) ==> forall n :: n >= k ==> LeadingOk(outcomes, n) == k
  {
    if k > 0 && outcomes != [] {
      assert Drop(outcomes, k) == Drop(outcomes[1..], k - 1);
      LeadingOkStep(outcomes[1..], k - 1);
    } else if k == 0 && outcomes != [] && !outcomes[0] {
      forall n | n >= k ensures LeadingOk(outcomes, n) == k {
      }
    }
  }

  /** The server: `log` holds the requests it accepted, in order; `outcomes`
      scripts the calls to come; the remaining fields are the data it answers
      with. */
  class Server {
    var log: seq<Request>
    var outcomes: seq<bool>
    var nextId: nat
    var webProducts: seq<Product>
    var aiAlimentos: seq<Candidate>
    var aiMensaje: string

    constructor(outcomes: seq<bool>, nextId: nat, webProducts: seq<Product>,
                aiAlimentos: seq<Candidate>, aiMensaje: string)
      ensures this.log == [] && this.outcomes == outcomes && this.nextId == nextId
      ensures this.webProducts == webProducts && this.aiAlimentos == aiAlimentos
      ensures this.aiMensaje == aiMensaje
    {
      this.log := [];
      this.outcomes := outcomes;
      this.nextId := nextId;
      this.webProducts := webProducts;
      this.aiAlimentos := aiAlimentos;
      this.aiMensaje := aiMensaje;
    }

    /** Issues `r`: it is accepted exactly when the script says the call succeeds. */
    method Send(r: Request) returns (ok: bool)
      modifies this
      ensures ok == NextOk(old(outcomes)) && outcomes == Drop(old(outcomes), 1)
      ensures log == if ok then old(log) + [r] else old(log)
      ensures nextId == old(nextId) && webProducts == old(webProducts)
      ensures aiAlimentos == old(aiAlimentos) && aiMensaje == old(aiMensaje)
    {
      ok := NextOk(outcomes);
      outcomes := Drop(outcomes, 1);
      if ok {
        log := log + [r];
      }
    }

    /** Issues a creating request; on success the answer carries the new id. */
    method Create(r: Request) returns (id: Option<nat>)
      modifies this
      ensures id.Some? == NextOk(old(outcomes)) && outcomes == Drop(old(outcomes), 1)
      ensures id.Some? ==> id.value == old(nextId) && nextId == old(nextId) + 1 && log == old(log) + [r]
      ensures id.None? ==> nextId == old(nextId) && log == old(log)
      ensures webProducts == old(webProducts)
      ensures aiAlimentos == old(aiAlimentos) && aiMensaje == old(aiMensaje)
    {
      var ok := Send(r);
      if ok {
        id := Some(nextId);
        nextId := nextId + 1;
      } else {
        id := None;
      }
    }
  }

  /** The requests that log each candidate: its food and its grams, in order. */
  function EntryPosts(items: seq<Candidate>, tipoComida: string): (posts: seq<Request>)
    ensures |posts| == |items|
    ensures forall i :: 0 <= i < |items| ==>
      posts[i] == PostRegistro(tipoComida, items[i].alimentoId, Num(Grams(items[i])))
  {
    seq(|items|, i requires 0 <= i < |items| =>
      PostRegistro(tipoComida, items[i].alimentoId, Num(Grams(items[i]))))
  }

  lemma EntryPostsSnoc(items: seq<Candidate>, k: nat, tipoComida: string)
    requires k < |items|
    ensures EntryPosts(items[..k + 1], tipoComida)
      == EntryPosts(items[..k], tipoComida) + [PostRegistro(tipoComida, items[k].alimentoId, Num(Grams(items[k])))]
  {
    assert items[..k + 1] == items[..k] + [items[k]];
  }

  /** Posts one entry per candidate, in order, each after the previous one
      succeeded; the first failure ends the loop and earlier entries stay.
      Returns how many were posted. */
  method PostEntries(server: Server, items: seq<Candidate>, tipoComida: string) returns (k: nat)
    modifies server
    ensures k == LeadingOk(old(server.outcomes), |items|)
    ensures server.log == old(server.log) + EntryPosts(items[..k], tipoComida)
    ensures server.outcomes == Drop(old(server.outcomes), if k < |items| then k + 1 else k)
    ensures server.nextId == old(server.nextId) && server.webProducts == old(server.webProducts)
    ensures server.aiAlimentos == old(server.aiAlimentos) && server.aiMensaje == old(server.aiMensaje)
  {
    k := 0;
    while k < |items|
      invariant k <= |items|
      invariant LeadingOk(old(server.outcomes), k) == k
      invariant server.log == old(server.log) + EntryPosts(items[..k], tipoComida)
      invariant server.outcomes == Drop(old(server.outcomes), k)
      invariant server.nextId == old(server.nextId) && server.webProducts == old(server.webProducts)
      invariant server.aiAlimentos == old(server.aiAlimentos) && server.aiMensaje == old(server.aiMensaje)
    {
      LeadingOkStep(old(server.outcomes), k);
      DropStep(old(server.outcomes), k);
      EntryPostsSnoc(items, k, tipoComida);
      var ok := server.Send(PostRegistro(tipoComida, items[k].alimentoId, Num(Grams(items[k]))));
      if !ok {
        return;
      }
      k := k + 1;
    }
  }
}
