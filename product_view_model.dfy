/** ui/screens/product/ProductViewModel.kt: the `uiState` field and its
    transitions. Every action first publishes `Loading` (`Begin`); its ending is
    the matching `Complete…` method, which receives what the use case returned or
    the message of the exception the coroutine caught. A successful mutation ends
    by running `loadProducts` again, whose outcome it also receives. */
module ProductViewModel {
  import Results
  import opened Text
  import opened Models
  import opened Transport

  const LOAD_FAILED := "Error al cargar productos: "
  const CREATE_FAILED := "Error al crear producto: "
  const UPDATE_FAILED := "Error al actualizar producto: "
  const DELETE_FAILED := "Error al eliminar producto: "
  const INVALID_PRODUCT_ID := "ID de producto inválido"

  datatype ProductUiState =
    | Initial
    | Loading
    | Success(products: seq<ProductData>)
    | Error(message: string)

  /** How the body of a `try` ended: a use-case result, or a caught exception
      with its nullable message. */
  datatype Attempt<+T> = Returned(result: Results.Result<T>) | Threw(message: Results.Option<string>)

  /** The state `loadProducts` ends in: the list as returned, the message
      verbatim, or the exception's message after the load prefix. */
  function LoadedState(outcome: Attempt<seq<ProductData>>): (s: ProductUiState)
    ensures outcome.Returned? && outcome.result.Success? ==> s == Success(outcome.result.data)
    ensures outcome.Returned? && outcome.result.Error? ==> s == Error(outcome.result.message)
    ensures outcome.Returned? && outcome.result.Loading? ==> s == Loading
    ensures outcome.Threw? ==> s == Error(LOAD_FAILED + MessageText(outcome.message))
    ensures s != Initial
  {
    match outcome
    case Threw(m) => Error(LOAD_FAILED + MessageText(m))
    case Returned(result) =>
      match result
      case Success(products) => Success(products)
      case Error(message) => Error(message)
      case Loading => Loading
  }

  class ProductViewModel {
    var uiState: ProductUiState

    constructor ()
      ensures uiState == Initial
    {
      uiState := Initial;
    }

    /** The first statement of `loadProducts`, `createProduct`, `updateProduct`
        and `deleteProduct`. */
    method Begin()
      modifies this
      ensures uiState == Loading
    {
      uiState := Loading;
    }

    /** `loadProducts` after `getProducts` answered. */
    method CompleteLoadProducts(outcome: Attempt<seq<ProductData>>)
      modifies this
      ensures uiState == LoadedState(outcome)
    {
      match outcome
      case Threw(m) => uiState := Error(LOAD_FAILED + MessageText(m));
      case Returned(result) =>
        match result {
          case Success(products) => uiState := Success(products);
          case Error(message) => uiState := Error(message);
          case Loading => uiState := Loading;
        }
    }

    /** The shared ending of the three mutations: on success the list is not
        patched but reloaded (`Begin` then `CompleteLoadProducts(reload)`); on
        failure the error replaces whatever list was shown. */
    method CompleteMutation<T>(outcome: Attempt<T>, failurePrefix: string, reload: Attempt<seq<ProductData>>)
      modifies this
      ensures outcome.Returned? && outcome.result.Success? ==> uiState == LoadedState(reload)
      ensures outcome.Returned? && outcome.result.Error? ==> uiState == Error(outcome.result.message)
      ensures outcome.Returned? && outcome.result.Loading? ==> uiState == Loading
      ensures outcome.Threw? ==> uiState == Error(failurePrefix + MessageText(outcome.message))
    {
      match outcome
      case Threw(m) => uiState := Error(failurePrefix + MessageText(m));
      case Returned(result) =>
        match result {
          case Success(_) =>
            Begin();
            CompleteLoadProducts(reload);
          case Error(message) => uiState := Error(message);
          case Loading => uiState := Loading;
        }
    }

    /** `createProduct` after the use case (or the image preparation) ended. */
    method CompleteCreateProduct(outcome: Attempt<ProductData>, reload: Attempt<seq<ProductData>>)
      modifies this
      ensures outcome.Returned? && outcome.result.Success? ==> uiState == LoadedState(reload)
      ensures outcome.Returned? && outcome.result.Error? ==> uiState == Error(outcome.result.message)
      ensures outcome.Returned? && outcome.result.Loading? ==> uiState == Loading
      ensures outcome.Threw? ==> uiState == Error(CREATE_FAILED + MessageText(outcome.message))
    {
      CompleteMutation(outcome, CREATE_FAILED, reload);
    }

    /** `updateProduct` after the use case (or the image preparation) ended. */
    method CompleteUpdateProduct(outcome: Attempt<ProductData>, reload: Attempt<seq<ProductData>>)
      modifies this
      ensures outcome.Returned? && outcome.result.Success? ==> uiState == LoadedState(reload)
      ensures outcome.Returned? && outcome.result.Error? ==> uiState == Error(outcome.result.message)
      ensures outcome.Returned? && outcome.result.Loading? ==> uiState == Loading
      ensures outcome.Threw? ==> uiState == Error(UPDATE_FAILED + MessageText(outcome.message))
    {
      CompleteMutation(outcome, UPDATE_FAILED, reload);
    }

    /** `deleteProduct`: a blank id is refused in place, before (and whatever) the
        use case would have answered. */
    method CompleteDeleteProduct(productId: string, outcome: Attempt<Results.Unit>, reload: Attempt<seq<ProductData>>)
      modifies this
      ensures IsBlank(productId) ==> uiState == Error(INVALID_PRODUCT_ID)
      ensures !IsBlank(productId) && outcome.Returned? && outcome.result.Success? ==> uiState == LoadedState(reload)
      ensures !IsBlank(productId) && outcome.Returned? && outcome.result.Error? ==> uiState == Error(outcome.result.message)
      ensures !IsBlank(productId) && outcome.Returned? && outcome.result.Loading? ==> uiState == Loading
      ensures !IsBlank(productId) && outcome.Threw? ==> uiState == Error(DELETE_FAILED + MessageText(outcome.message))
    {
      if IsBlank(productId) {
        uiState := Error(INVALID_PRODUCT_ID);
        return;
      }
      CompleteMutation(outcome, DELETE_FAILED, reload);
    }

    /** `resetState`: back to `Initial` from any state. */
    method ResetState()
      modifies this
      ensures uiState == Initial
    {
      uiState := Initial;
    }
  }

  /** Create a product, then reload the list: whatever was shown before, the
      screen ends on the reloaded list, never on a locally patched one. */
  method CreateThenReload(vm: ProductViewModel, created: ProductData, listed: seq<ProductData>)
    modifies vm
    ensures vm.uiState == Success(listed)
  {
    vm.Begin();
    assert vm.uiState == Loading;
    vm.CompleteCreateProduct(Returned(Results.Success(created)), Returned(Results.Success(listed)));
  }
}
