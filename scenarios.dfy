/**
 * Request sequences run against a freshly started registry, each proved
 * from the handlers' contracts alone: what a client observes through the
 * routes, starting from the two seed records.
 */
module Scenarios {
  import opened Wrappers
  import opened Json
  import opened Products
  import opened Server

  /** Right after start the list holds exactly the seed records, ids 1 and 2. */
  method ListAfterStart() returns (ps: seq<Product>)
    ensures |ps| == 2 && ps[0].id == 1 && ps[1].id == 2
    ensures ps[0].nome == "Camiseta" && ps[1].nome == "Caneca"
  {
    var registry := new Registry();
    ps := registry.List();
  }

  /**
   * Creating `{nome: "X", preco: 1.5}` gives the record id 3 and an empty
   * description, and fetching id 3 afterwards returns that record.
   */
  method CreateThenGet() returns (created: Outcome, fetched: Outcome)
    ensures created == Created(Product(3, "X", 1.5, JString("")))
    ensures fetched == Found(Product(3, "X", 1.5, JString("")))
  {
    var registry := new Registry();
    created := registry.Create(Body(Some(JString("X")), Some(JNumber(1.5)), None));
    assert registry.products[2].id == 3;
    fetched := registry.Get(3);
  }

  /** Two creates in a row get the ids 3 and 4: each new id is the previous largest plus one. */
  method CreateTwice() returns (first: Outcome, second: Outcome)
    ensures first.Created? && first.product.id == 3
    ensures second.Created? && second.product.id == 4
  {
    var registry := new Registry();
    var body := Body(Some(JString("X")), Some(JNumber(1.0)), None);
    first := registry.Create(body);
    assert first.product.id == 3;
    NextIdAfterAppend(Seed(), first.product);
    assert registry.products == Seed() + [first.product];
    second := registry.Create(body);
  }

  /** A create without `preco` answers 400 with the price message and leaves the list as it was. */
  method CreateWithoutPrice() returns (answer: Outcome, ps: seq<Product>)
    ensures answer == BadRequest(CreatePrecoMessage)
    ensures ps == Seed()
  {
    var registry := new Registry();
    answer := registry.Create(Body(Some(JString("X")), None, None));
    ps := registry.List();
  }

  /** Updating only `preco` of record 2 leaves its name and description as they were. */
  method UpdatePriceOnly() returns (answer: Outcome)
    ensures answer == Updated(Product(2, "Caneca", 5.0, JString("Caneca personalizada")))
  {
    var registry := new Registry();
    answer := registry.Update(2, Body(None, Some(JNumber(5.0)), None));
  }

  /** A name of three spaces is refused by update, and record 1 stays as it was. */
  method UpdateBlankName() returns (answer: Outcome, after: Outcome)
    ensures answer == BadRequest(UpdateNomeMessage)
    ensures after == Found(Seed()[0])
  {
    var registry := new Registry();
    answer := registry.Update(1, Body(Some(JString("   ")), None, None));
    after := registry.Get(1);
  }

  /**
   * Update is not atomic: with a valid name and a price that is not a
   * number, the answer is the price error, yet the new name has already
   * been written and is what a later fetch returns.
   */
  method UpdateKeepsNameWhenPriceFails() returns (answer: Outcome, after: Outcome)
    ensures answer == BadRequest(UpdatePrecoMessage)
    ensures after.Found? && after.product.nome == "Novo" && after.product.preco == 29.99
  {
    var registry := new Registry();
    assert HasVisibleChar("Novo") by { assert !IsWhitespace("Novo"[0]); }
    answer := registry.Update(1, Body(Some(JString("Novo")), Some(JString("caro")), None));
    after := registry.Get(1);
  }

  /** Fetching, updating and deleting an id nobody has all answer 404. */
  method AbsentIdOnEveryRoute() returns (got: Outcome, updated: Outcome, deleted: Outcome)
    ensures got == NotFound && updated == NotFound && deleted == NotFound
  {
    var registry := new Registry();
    got := registry.Get(99);
    updated := registry.Update(99, Body(Some(JString("X")), None, None));
    deleted := registry.Delete(99);
  }

  /** Deleting id 1 answers 204, leaves only record 2, and a later fetch of id 1 answers 404. */
  method DeleteThenGet() returns (deleted: Outcome, ps: seq<Product>, got: Outcome)
    ensures deleted == Deleted
    ensures |ps| == 1 && ps[0] == Seed()[1]
    ensures got == NotFound
  {
    var registry := new Registry();
    deleted := registry.Delete(1);
    ps := registry.List();
    got := registry.Get(1);
  }

  /** Deleting the record with the largest id and creating again hands out that same id once more. */
  method DeleteLastThenCreate() returns (created: Outcome)
    ensures created.Created? && created.product.id == 2
  {
    var registry := new Registry();
    var _ := registry.Delete(2);
    assert FindIndex(Seed(), 2) == 1;
    var body := Body(Some(JString("X")), Some(JNumber(1.0)), None);
    assert !CreateNomeInvalid(body.nome) && !CreatePrecoInvalid(body.preco);
    assert NextId(registry.products) == 2;
    created := registry.Create(body);
  }
}
