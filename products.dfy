/**
 * The product records of the registry and the pure logic of its handlers:
 * the lookups `find`, `findIndex`, `some` and `filter` over the product
 * list, the allocation of a new id, and the field checks of create and
 * update with their fixed error texts.
 */
module Products {
  import opened Wrappers
  import opened Json

  /**
   * One product record. `nome` is always a string and `preco` always a
   * number, because both handlers that write them check their type first;
   * `descricao` may be any truthy JSON value, because create stores
   * `descricao || ''` without checking its type.
   */
  datatype Product = Product(id: int, nome: string, preco: real, descricao: JsonValue)

  /** The three fields a request body may supply; `None` is a field the body leaves out. */
  datatype Body = Body(nome: Option<JsonValue>, preco: Option<JsonValue>, descricao: Option<JsonValue>)

  /** What a handler answers, before it is serialised to a status code and a JSON body. */
  datatype Outcome =
    | Found(product: Product)      // 200 with the record
    | Created(product: Product)    // 201 with the text "Produto criado com sucesso." and the record
    | Updated(product: Product)    // 200 with the text "Produto atualizado com sucesso." and the record
    | Deleted                      // 204, empty body
    | NotFound                     // 404 with the error text "Produto não encontrado."
    | BadRequest(erro: string)     // 400 with the error text of the failing check

  const CreateNomeMessage := "Campo 'nome' é obrigatório e deve ser texto."
  const CreatePrecoMessage := "Campo 'preco' é obrigatório e deve ser número."
  const UpdateNomeMessage := "Se enviar 'nome', deve ser texto não vazio."
  const UpdatePrecoMessage := "Se enviar 'preco', deve ser número."
  const UpdateDescricaoMessage := "Se enviar 'descricao', deve ser texto."

  // ---------------------------------------------------------------------
  // The collection invariant and the seed

  /** Every record's name is a non-empty string: create and update both refuse an empty name. */
  predicate NamesNonEmpty(ps: seq<Product>)
  {
    forall i :: 0 <= i < |ps| ==> ps[i].nome != ""
  }

  /** Every id is positive and no two records share an id. */
  predicate ValidIds(ps: seq<Product>)
  {
    (forall i :: 0 <= i < |ps| ==> ps[i].id > 0) &&
    (forall i, j :: 0 <= i < j < |ps| ==> ps[i].id != ps[j].id)
  }

  /**
   * The records are in increasing id order. Create appends an id above all
   * others and delete only removes records, so the collection never leaves
   * this order; it implies that the ids are distinct.
   */
  predicate IdsAscending(ps: seq<Product>)
  {
    forall i, j :: 0 <= i < j < |ps| ==> ps[i].id < ps[j].id
  }

  /** The two records the collection holds when the process starts. */
  function Seed(): (ps: seq<Product>)
    ensures ValidIds(ps) && IdsAscending(ps) && NamesNonEmpty(ps)
    ensures |ps| == 2 && ps[0].id == 1 && ps[1].id == 2
  {
    [ Product(1, "Camiseta", 29.99, JString("Camiseta de algodão")),
      Product(2, "Caneca", 19.99, JString("Caneca personalizada")) ]
  }

  // ---------------------------------------------------------------------
  // Lookups by id

  /** `ps.some(p => p.id === id)` */
  predicate HasId(ps: seq<Product>, id: int)
  {
    exists i :: 0 <= i < |ps| && ps[i].id == id
  }

  /** `ps.findIndex(p => p.id === id)`: the first index holding `id`, or -1 when there is none. */
  function FindIndex(ps: seq<Product>, id: int): (r: int)
    ensures -1 <= r < |ps|
    ensures r == -1 <==> !HasId(ps, id)
    ensures r >= 0 ==> ps[r].id == id && forall j :: 0 <= j < r ==> ps[j].id != id
  {
    if ps == [] then -1
    else if ps[0].id == id then 0
    else
      var r := FindIndex(ps[1..], id);
      assert forall j :: 1 <= j < |ps| ==> ps[j] == ps[1..][j - 1];
      if r == -1 then -1 else r + 1
  }

  /** `ps.find(p => p.id === id)`: the first record holding `id`, if any. */
  function Find(ps: seq<Product>, id: int): (r: Option<Product>)
    ensures r.None? <==> !HasId(ps, id)
    ensures r.Some? ==> r.value.id == id && r.value == ps[FindIndex(ps, id)]
  {
    if ps == [] then None
    else if ps[0].id == id then Some(ps[0])
    else
      assert forall j :: 1 <= j < |ps| ==> ps[j] == ps[1..][j - 1];
      Find(ps[1..], id)
  }

  /** Every record of `ps` whose id is not `id` is also in `r`. */
  predicate KeepsOtherIds(ps: seq<Product>, r: seq<Product>, id: int)
  {
    forall p :: p in ps && p.id != id ==> p in r
  }

  /**
   * `ps.filter(p => p.id !== id)`: the records whose id differs from `id`,
   * in their original order.
   */
  function Without(ps: seq<Product>, id: int): (r: seq<Product>)
    ensures |r| <= |ps|
    ensures forall p :: p in r ==> p in ps && p.id != id
    ensures KeepsOtherIds(ps, r, id)
    ensures !HasId(ps, id) ==> r == ps
  {
    if ps == [] then []
    else
      var tail := ps[1..];
      var rest := Without(tail, id);
      assert !HasId(ps, id) ==> !HasId(tail, id) by {
        if HasId(tail, id) {
          var i :| 0 <= i < |tail| && tail[i].id == id;
          assert ps[i + 1].id == id;
        }
      }
      assert ps == [ps[0]] + tail;
      var r := if ps[0].id == id then rest else [ps[0]] + rest;
      assert forall p :: p in r ==> p in ps && p.id != id by {
        forall p | p in r ensures p in ps && p.id != id {
          if p in rest {
            assert p in tail;
          }
        }
      }
      assert KeepsOtherIds(ps, r, id) by {
        forall p | p in ps && p.id != id ensures p in r {
          if p != ps[0] {
            assert p in tail;
          }
        }
      }
      r
  }

  // ---------------------------------------------------------------------
  // Id allocation

  /** `Math.max(...ps.map(p => p.id))`: the largest id of a non-empty list. */
  function MaxId(ps: seq<Product>): (m: int)
    requires |ps| > 0
    ensures forall i :: 0 <= i < |ps| ==> ps[i].id <= m
    ensures exists i :: 0 <= i < |ps| && ps[i].id == m
  {
    if |ps| == 1 then ps[0].id
    else
      var m := MaxId(ps[1..]);
      assert forall i :: 1 <= i < |ps| ==> ps[i] == ps[1..][i - 1];
      if ps[0].id >= m then ps[0].id
      else
        assert exists i :: 1 <= i < |ps| && ps[i].id == m by {
          var j :| 0 <= j < |ps[1..]| && ps[1..][j].id == m;
          assert ps[j + 1].id == m;
        }
        m
  }

  /**
   * The id create gives a new record: one more than the largest id in the
   * list, or 1 when the list is empty. It exceeds every id present, so it
   * is fresh, and it is positive whenever the ids present are.
   */
  function NextId(ps: seq<Product>): (n: int)
    ensures forall i :: 0 <= i < |ps| ==> ps[i].id < n
    ensures !HasId(ps, n)
    ensures ps == [] ==> n == 1
    ensures ps != [] ==> HasId(ps, n - 1)
    ensures ValidIds(ps) ==> n > 0
  {
    if |ps| > 0 then MaxId(ps) + 1 else 1
  }

  // ---------------------------------------------------------------------
  // Field checks of create (POST /produtos)

  /**
   * `!nome || typeof nome !== 'string'`: create rejects a name that is
   * absent, not a string, or the empty string. A name of spaces only is
   * accepted, since nothing trims it.
   */
  predicate CreateNomeInvalid(nome: Option<JsonValue>)
    ensures CreateNomeInvalid(nome) <==> !(nome.Some? && nome.value.JString? && nome.value.s != "")
  {
    !Truthy(nome) || TypeOf(nome) != String
  }

  /** `preco === undefined || typeof preco !== 'number'`: create rejects a price that is absent or not a number. */
  predicate CreatePrecoInvalid(preco: Option<JsonValue>)
    ensures CreatePrecoInvalid(preco) <==> !(preco.Some? && preco.value.JNumber?)
  {
    preco.None? || TypeOf(preco) != Number
  }

  /**
   * `descricao || ''`: the description create stores. A falsy value
   * (absent, null, false, 0, "") becomes the empty string; any truthy value
   * is stored as supplied, whatever its type. In particular a supplied
   * string is stored unchanged.
   */
  function DescricaoOrEmpty(descricao: Option<JsonValue>): (d: JsonValue)
    ensures descricao.Some? && descricao.value.JString? ==> d == descricao.value
    ensures !Truthy(descricao) ==> d == JString("")
    ensures Truthy(descricao) ==> d == descricao.value
  {
    if Truthy(descricao) then descricao.value else JString("")
  }

  /** The record create appends for an accepted body, given the list it is appended to. */
  function NewProduct(ps: seq<Product>, body: Body): (p: Product)
    requires !CreateNomeInvalid(body.nome) && !CreatePrecoInvalid(body.preco)
    ensures p.id == NextId(ps)
    ensures !HasId(ps, p.id) && (ValidIds(ps) ==> p.id > 0)
    ensures Some(JString(p.nome)) == body.nome && Some(JNumber(p.preco)) == body.preco
    ensures p.descricao == DescricaoOrEmpty(body.descricao)
  {
    Product(NextId(ps), body.nome.value.s, body.preco.value.n, DescricaoOrEmpty(body.descricao))
  }

  // ---------------------------------------------------------------------
  // Field checks of update (PUT /produtos/:id), applied only to fields the body supplies

  /**
   * The name check of update: a supplied name is rejected unless it is a
   * string with at least one non-whitespace character.
   * UpdateNomeInvalidIsTypeofTrim shows this is the source's
   * `typeof nome !== 'string' || !nome.trim()`.
   */
  predicate UpdateNomeInvalid(nome: JsonValue)
  {
    !(nome.JString? && HasVisibleChar(nome.s))
  }

  /** The name check of update agrees with its JavaScript form, which tests `typeof` and then trims. */
  lemma UpdateNomeInvalidIsTypeofTrim(nome: JsonValue)
    ensures UpdateNomeInvalid(nome) <==> (TypeOf(Some(nome)) != String || Trim(nome.s) == "")
  {
  }

  /** `typeof preco !== 'number'` */
  predicate UpdatePrecoInvalid(preco: JsonValue)
    ensures UpdatePrecoInvalid(preco) <==> !preco.JNumber?
  {
    TypeOf(Some(preco)) != Number
  }

  /** `typeof descricao !== 'string'` */
  predicate UpdateDescricaoInvalid(descricao: JsonValue)
    ensures UpdateDescricaoInvalid(descricao) <==> !descricao.JString?
  {
    TypeOf(Some(descricao)) != String
  }

  /*
   * Update checks and writes the fields one after the other, in the order
   * nome, preco, descricao, and stops at the first supplied field that fails
   * its check. The predicates below name, for a body, which check fails and
   * which fields get written before the request stops.
   */

  predicate NomeFails(body: Body)
  {
    body.nome.Some? && UpdateNomeInvalid(body.nome.value)
  }

  predicate PrecoFails(body: Body)
  {
    body.preco.Some? && UpdatePrecoInvalid(body.preco.value)
  }

  predicate DescricaoFails(body: Body)
  {
    body.descricao.Some? && UpdateDescricaoInvalid(body.descricao.value)
  }

  /** The name is written when it is supplied and valid, whatever follows it. */
  predicate NomeWritten(body: Body)
  {
    body.nome.Some? && !NomeFails(body)
  }

  /** The price is written when it is supplied and valid and the name check did not stop the request. */
  predicate PrecoWritten(body: Body)
  {
    !NomeFails(body) && body.preco.Some? && !PrecoFails(body)
  }

  /** The description is written only when neither earlier check stopped the request. */
  predicate DescricaoWritten(body: Body)
  {
    !NomeFails(body) && !PrecoFails(body) && body.descricao.Some? && !DescricaoFails(body)
  }

  /** The answer update gives for a record it found: the error of the first failing field, else the updated record. */
  function UpdateAnswer(body: Body, updated: Product): (o: Outcome)
    ensures o.Updated? <==> !NomeFails(body) && !PrecoFails(body) && !DescricaoFails(body)
    ensures o.Updated? ==> o.product == updated
    ensures NomeFails(body) ==> o == BadRequest(UpdateNomeMessage)
    ensures !NomeFails(body) && PrecoFails(body) ==> o == BadRequest(UpdatePrecoMessage)
    ensures !NomeFails(body) && !PrecoFails(body) && DescricaoFails(body) ==> o == BadRequest(UpdateDescricaoMessage)
  {
    if NomeFails(body) then BadRequest(UpdateNomeMessage)
    else if PrecoFails(body) then BadRequest(UpdatePrecoMessage)
    else if DescricaoFails(body) then BadRequest(UpdateDescricaoMessage)
    else Updated(updated)
  }

  // ---------------------------------------------------------------------
  // Lemmas about the list operations

  /**
   * When the ids are distinct, filtering out `id` removes exactly the one
   * record `findIndex` locates, and the survivors keep their order.
   */
  lemma WithoutRemovesFoundRecord(ps: seq<Product>, id: int)
    requires ValidIds(ps) && HasId(ps, id)
    ensures Without(ps, id) == ps[..FindIndex(ps, id)] + ps[FindIndex(ps, id) + 1..]
    ensures |Without(ps, id)| == |ps| - 1
  {
    var k := FindIndex(ps, id);
    SplitAt(ps, k);
    OnlyFoundRecordHasId(ps, id);
    WithoutSingleMatch(ps[..k], ps[k], ps[k + 1..], id);
  }

  /** Filtering out the id of the one record that has it, between two parts without it, leaves the two parts joined. */
  lemma WithoutSingleMatch(before: seq<Product>, p: Product, after: seq<Product>, id: int)
    requires !HasId(before, id) && p.id == id && !HasId(after, id)
    ensures Without(before + ([p] + after), id) == before + after
  {
    assert Without([p], id) == [];
    WithoutDistributes([p], after, id);
    WithoutDistributes(before, [p] + after, id);
  }

  /** A sequence is its part before `k`, its element at `k` and its part after `k`. */
  lemma SplitAt<T>(s: seq<T>, k: nat)
    requires k < |s|
    ensures s == s[..k] + ([s[k]] + s[k + 1..])
  {
  }

  /** With distinct ids, no record before or after the `findIndex` position has the id. */
  lemma OnlyFoundRecordHasId(ps: seq<Product>, id: int)
    requires ValidIds(ps) && HasId(ps, id)
    ensures !HasId(ps[..FindIndex(ps, id)], id)
    ensures !HasId(ps[FindIndex(ps, id) + 1..], id)
  {
    var k := FindIndex(ps, id);
    var after := ps[k + 1..];
    forall j | 0 <= j < |after| ensures after[j].id != id {
      assert after[j] == ps[k + 1 + j];
    }
  }

  /**
   * Filtering works record by record and keeps the order: filtering a
   * concatenation is concatenating the filtered parts.
   */
  lemma {:induction false} WithoutDistributes(a: seq<Product>, b: seq<Product>, id: int)
    ensures Without(a + b, id) == Without(a, id) + Without(b, id)
  {
    if a == [] {
      assert a + b == b;
    } else {
      assert (a + b)[0] == a[0] && (a + b)[1..] == a[1..] + b;
      WithoutDistributes(a[1..], b, id);
    }
  }

  /** Dropping the first record keeps the ids positive and distinct. */
  lemma TailKeepsValidIds(ps: seq<Product>)
    requires ValidIds(ps) && ps != []
    ensures ValidIds(ps[1..])
  {
  }

  /** Filtering keeps the ids positive and distinct. */
  lemma {:induction false} WithoutKeepsValidIds(ps: seq<Product>, id: int)
    requires ValidIds(ps)
    ensures ValidIds(Without(ps, id))
  {
    if ps != [] {
      var tail := ps[1..];
      TailKeepsValidIds(ps);
      WithoutKeepsValidIds(tail, id);
      var rest := Without(tail, id);
      if ps[0].id != id {
        forall q | q in rest ensures q.id != ps[0].id {
          var i :| 0 <= i < |tail| && tail[i] == q;
          assert ps[i + 1] == q;
        }
        ConsKeepsValidIds(ps[0], rest);
      }
    }
  }

  /** Putting a record with a positive id that no record of `ps` has in front of `ps` keeps the ids positive and distinct. */
  lemma ConsKeepsValidIds(p: Product, ps: seq<Product>)
    requires ValidIds(ps) && p.id > 0
    requires forall q :: q in ps ==> q.id != p.id
    ensures ValidIds([p] + ps)
  {
  }

  /** Appending a record with a fresh positive id keeps the ids positive and distinct. */
  lemma AppendFreshKeepsValidIds(ps: seq<Product>, p: Product)
    requires ValidIds(ps) && p.id > 0 && !HasId(ps, p.id)
    ensures ValidIds(ps + [p])
  {
  }

  /**
   * Rewriting the record at one index without touching its id, and with a
   * non-empty name, keeps the ids positive, distinct and in order and every
   * name non-empty.
   */
  lemma ReplaceSameIdKeepsInvariant(ps: seq<Product>, i: nat, p: Product)
    requires ValidIds(ps) && IdsAscending(ps) && NamesNonEmpty(ps)
    requires i < |ps| && p.id == ps[i].id && p.nome != ""
    ensures ValidIds(ps[i := p]) && IdsAscending(ps[i := p]) && NamesNonEmpty(ps[i := p])
  {
  }

  /** Filtering keeps the records in increasing id order. */
  lemma {:induction false} WithoutKeepsAscending(ps: seq<Product>, id: int)
    requires IdsAscending(ps)
    ensures IdsAscending(Without(ps, id))
  {
    if ps != [] {
      var tail := ps[1..];
      assert IdsAscending(tail) by {
        forall i, j | 0 <= i < j < |tail| ensures tail[i].id < tail[j].id {
          assert tail[i] == ps[i + 1] && tail[j] == ps[j + 1];
        }
      }
      WithoutKeepsAscending(tail, id);
      var rest := Without(tail, id);
      if ps[0].id != id {
        forall q | q in rest ensures ps[0].id < q.id {
          var i :| 0 <= i < |tail| && tail[i] == q;
          assert ps[i + 1] == q;
        }
        ConsKeepsAscending(ps[0], rest);
      }
    }
  }

  /** Putting a record with an id below all ids of `ps` in front of `ps` keeps the increasing order. */
  lemma ConsKeepsAscending(p: Product, ps: seq<Product>)
    requires IdsAscending(ps)
    requires forall q :: q in ps ==> p.id < q.id
    ensures IdsAscending([p] + ps)
  {
  }

  /** Appending a record whose id exceeds every id present keeps the increasing order. */
  lemma AppendAboveKeepsAscending(ps: seq<Product>, p: Product)
    requires IdsAscending(ps)
    requires forall i :: 0 <= i < |ps| ==> ps[i].id < p.id
    ensures IdsAscending(ps + [p])
  {
  }

  /** In a list in increasing id order, the next id is one more than the id of the last record. */
  lemma NextIdIsLastPlusOne(ps: seq<Product>)
    requires IdsAscending(ps) && ps != []
    ensures NextId(ps) == ps[|ps| - 1].id + 1
  {
  }

  /**
   * Ids grow one at a time: once the record create allocates is appended,
   * the next id is one more than the id it was given.
   */
  lemma NextIdAfterAppend(ps: seq<Product>, p: Product)
    requires p.id == NextId(ps)
    ensures NextId(ps + [p]) == p.id + 1
  {
    assert (ps + [p])[|ps|] == p;
  }
}
