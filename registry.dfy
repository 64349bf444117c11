/**
 * The process-wide product collection and the handlers of the
 * `/produtos` routes, as methods of one object that owns the list.
 * Routing, body parsing and serialisation are not modelled: a handler
 * receives the already-parsed path id and body fields and returns an
 * Outcome.
 */
module Server {
  import opened Wrappers
  import opened Json
  import opened Products

  class Registry {
    /** `produtos`: the records in creation order. */
    var products: seq<Product>

    /**
     * The collection invariant: ids are positive, pairwise distinct and in
     * increasing order, and every name is a non-empty string.
     */
    ghost predicate Valid()
      reads this
    {
      ValidIds(products) && IdsAscending(products) && NamesNonEmpty(products)
    }

    /** The collection as the process starts it: the two seed records, ids 1 and 2. */
    constructor ()
      ensures Valid()
      ensures products == Seed()
    {
      products := Seed();
    }

    /** GET /produtos: the whole collection, in order. */
    method List() returns (ps: seq<Product>)
      requires Valid()
      ensures ps == products
      ensures ValidIds(ps) && IdsAscending(ps) && NamesNonEmpty(ps)
    {
      ps := products;
    }

    /** GET /produtos/:id: the record with that id, or 404; the collection is only read. */
    method Get(id: int) returns (r: Outcome)
      ensures r.Found? || r == NotFound
      ensures r == NotFound <==> !HasId(products, id)
      ensures r.Found? ==> r.product.id == id && r.product == products[FindIndex(products, id)]
    {
      var produto := Find(products, id);
      if produto.None? {
        return NotFound;
      }
      return Found(produto.value);
    }

    /**
     * POST /produtos: checks `nome`, then `preco`; an invalid field answers
     * 400 with its message and leaves the collection as it was. Otherwise a
     * record with the next id is appended and returned with 201.
     */
    method Create(body: Body) returns (r: Outcome)
      requires Valid()
      modifies this
      ensures Valid()
      ensures CreateNomeInvalid(body.nome) ==>
        r == BadRequest(CreateNomeMessage) && products == old(products)
      ensures !CreateNomeInvalid(body.nome) && CreatePrecoInvalid(body.preco) ==>
        r == BadRequest(CreatePrecoMessage) && products == old(products)
      ensures !CreateNomeInvalid(body.nome) && !CreatePrecoInvalid(body.preco) ==>
        r == Created(NewProduct(old(products), body)) &&
        products == old(products) + [r.product]
    {
      if CreateNomeInvalid(body.nome) {
        return BadRequest(CreateNomeMessage);
      }
      if CreatePrecoInvalid(body.preco) {
        return BadRequest(CreatePrecoMessage);
      }
      var novoId := if |products| > 0 then MaxId(products) + 1 else 1;
      var novoProduto := Product(novoId, body.nome.value.s, body.preco.value.n, DescricaoOrEmpty(body.descricao));
      AppendFreshKeepsValidIds(products, novoProduto);
      AppendAboveKeepsAscending(products, novoProduto);
      products := products + [novoProduto];
      return Created(novoProduto);
    }

    /**
     * PUT /produtos/:id: 404 when no record has the id. Otherwise the
     * supplied fields are checked and written one at a time, in the order
     * nome, preco, descricao; the first one that fails its check answers 400
     * and the fields written before it stay written. Only the found record
     * changes, and never its id.
     */
    method Update(id: int, body: Body) returns (r: Outcome)
      requires Valid()
      modifies this
      ensures Valid()
      ensures !HasId(old(products), id) ==> r == NotFound && products == old(products)
      ensures HasId(old(products), id) ==>
        var i := FindIndex(old(products), id);
        var was := old(products)[i];
        |products| == |old(products)| &&
        (forall j :: 0 <= j < |products| && j != i ==> products[j] == old(products)[j]) &&
        products[i].id == was.id &&
        products[i].nome == (if NomeWritten(body) then body.nome.value.s else was.nome) &&
        products[i].preco == (if PrecoWritten(body) then body.preco.value.n else was.preco) &&
        products[i].descricao == (if DescricaoWritten(body) then body.descricao.value else was.descricao) &&
        r == UpdateAnswer(body, products[i])
    {
      var indice := FindIndex(products, id);
      if indice == -1 {
        return NotFound;
      }
      ghost var before := products;
      var produto := products[indice];

      if body.nome.Some? {
        if UpdateNomeInvalid(body.nome.value) {
          return BadRequest(UpdateNomeMessage);
        }
        produto := produto.(nome := body.nome.value.s);
        products := products[indice := produto];
      }
      assert !NomeFails(body);
      assert products == before[indice := produto];
      assert produto.nome == (if NomeWritten(body) then body.nome.value.s else before[indice].nome);

      if body.preco.Some? {
        if UpdatePrecoInvalid(body.preco.value) {
          ReplaceSameIdKeepsInvariant(before, indice, produto);
          return BadRequest(UpdatePrecoMessage);
        }
        produto := produto.(preco := body.preco.value.n);
        products := products[indice := produto];
      }
      assert !PrecoFails(body);
      assert products == before[indice := produto];
      assert produto.preco == (if PrecoWritten(body) then body.preco.value.n else before[indice].preco);

      if body.descricao.Some? {
        if UpdateDescricaoInvalid(body.descricao.value) {
          ReplaceSameIdKeepsInvariant(before, indice, produto);
          return BadRequest(UpdateDescricaoMessage);
        }
        produto := produto.(descricao := body.descricao.value);
        products := products[indice := produto];
      }
      assert !DescricaoFails(body);
      assert products == before[indice := produto];
      assert produto.descricao == (if DescricaoWritten(body) then body.descricao.value else before[indice].descricao);

      ReplaceSameIdKeepsInvariant(before, indice, produto);
      return Updated(products[indice]);
    }

    /**
     * DELETE /produtos/:id: 404 when no record has the id. Otherwise the
     * collection becomes the records with a different id, which removes
     * exactly the found record and keeps the others in order; 204.
     */
    method Delete(id: int) returns (r: Outcome)
      requires Valid()
      modifies this
      ensures Valid()
      ensures !HasId(old(products), id) ==> r == NotFound && products == old(products)
      ensures HasId(old(products), id) ==>
        var i := FindIndex(old(products), id);
        r == Deleted &&
        products == Without(old(products), id) &&
        products == old(products)[..i] + old(products)[i + 1..] &&
        |products| == |old(products)| - 1 &&
        !HasId(products, id)
    {
      var existe := HasId(products, id);
      if !existe {
        return NotFound;
      }
      WithoutRemovesFoundRecord(products, id);
      WithoutKeepsValidIds(products, id);
      WithoutKeepsAscending(products, id);
      products := Without(products, id);
      return Deleted;
    }
  }
}
