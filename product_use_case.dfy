/** domain/usecase/ProductUseCase.kt: the four product operations up to their
    calls into `ProductRepository`. The token is never checked here. */
module ProductUseCase {
  import opened Results
  import opened Text
  import opened Guards

  const NAME_REQUIRED := "El nombre del producto es requerido"
  const NEGATIVE_QUANTITY := "La cantidad debe ser mayor o igual a 0"
  const INVALID_PRODUCT_ID := "ID de producto inválido"

  /** `getProducts(token)`: no validation at all. */
  function GetProducts(token: string): (v: Verdict<string>)
    ensures v == Delegated(token)
  {
    Delegated(token)
  }

  /** `createProduct(token, name, quantity)`: blank name, then negative quantity. */
  function CreateProduct(token: string, name: string, quantity: int): (v: Verdict<(string, string, int)>)
    ensures v == Rejected(NAME_REQUIRED) <==> IsBlank(name)
    ensures v == Rejected(NEGATIVE_QUANTITY) <==> !IsBlank(name) && quantity < 0
    ensures v.Delegated? <==> !IsBlank(name) && quantity >= 0
    ensures v.Delegated? ==> v.args == (token, name, quantity)
  {
    if IsBlank(name) then Rejected(NAME_REQUIRED)
    else if quantity < 0 then Rejected(NEGATIVE_QUANTITY)
    else Delegated((token, name, quantity))
  }

  /** `updateProduct(token, productId, name, quantity)`: the same two guards in the
      same order; `productId` is forwarded without any check. */
  function UpdateProduct(token: string, productId: string, name: string, quantity: int)
    : (v: Verdict<(string, string, string, int)>)
    ensures v == Rejected(NAME_REQUIRED) <==> IsBlank(name)
    ensures v == Rejected(NEGATIVE_QUANTITY) <==> !IsBlank(name) && quantity < 0
    ensures v.Delegated? <==> !IsBlank(name) && quantity >= 0
    ensures v.Delegated? ==> v.args == (token, productId, name, quantity)
  {
    if IsBlank(name) then Rejected(NAME_REQUIRED)
    else if quantity < 0 then Rejected(NEGATIVE_QUANTITY)
    else Delegated((token, productId, name, quantity))
  }

  /** `deleteProduct(token, productId)`: only a blank id is refused. */
  function DeleteProduct(token: string, productId: string): (v: Verdict<(string, string)>)
    ensures v == Rejected(INVALID_PRODUCT_ID) <==> IsBlank(productId)
    ensures v.Delegated? <==> !IsBlank(productId)
    ensures v.Delegated? ==> v.args == (token, productId)
  {
    if IsBlank(productId) then Rejected(INVALID_PRODUCT_ID)
    else Delegated((token, productId))
  }

  /** Create and update validate alike: the verdicts agree on every input, and
      the product id never influences the update's decision. */
  lemma UpdateValidatesLikeCreate(token: string, productId: string, name: string, quantity: int)
    ensures UpdateProduct(token, productId, name, quantity).Delegated?
        <==> CreateProduct(token, name, quantity).Delegated?
    ensures UpdateProduct(token, productId, name, quantity).Rejected?
        ==> UpdateProduct(token, productId, name, quantity).message == CreateProduct(token, name, quantity).message
  {
  }

  /** The checks of `createProduct` and `updateProduct`, in source order. */
  function ProductGuards(name: string, quantity: int): seq<Guard> {
    [ Guard(IsBlank(name), NAME_REQUIRED),
      Guard(quantity < 0, NEGATIVE_QUANTITY) ]
  }

  /** The single check of `deleteProduct`. */
  function DeleteProductGuards(productId: string): seq<Guard> {
    [ Guard(IsBlank(productId), INVALID_PRODUCT_ID) ]
  }

  /** Each operation is its checks read by the reference chain; `getProducts`
      has none. */
  lemma OperationsFollowGuardOrder(token: string, productId: string, name: string, quantity: int)
    ensures GetProducts(token) == Evaluate([], token)
    ensures CreateProduct(token, name, quantity) == Evaluate(ProductGuards(name, quantity), (token, name, quantity))
    ensures UpdateProduct(token, productId, name, quantity)
         == Evaluate(ProductGuards(name, quantity), (token, productId, name, quantity))
    ensures DeleteProduct(token, productId) == Evaluate(DeleteProductGuards(productId), (token, productId))
  {
    var gs := ProductGuards(name, quantity);
    assert gs[1..][1..] == [];
    assert DeleteProductGuards(productId)[1..] == [];
  }

  /** `createProduct` as the app calls it: the repository is consulted only for a
      non-blank name and a non-negative quantity. */
  lemma CreateReachesRepositoryOnlyWhenValid<T>(token: string, name: string, quantity: int,
                                                create: ((string, string, int)) -> Result<T>)
    ensures Run(CreateProduct(token, name, quantity), create)
         == if IsBlank(name) then Error(NAME_REQUIRED)
            else if quantity < 0 then Error(NEGATIVE_QUANTITY)
            else create((token, name, quantity))
  {
  }
}
