/** ui/screens/register/RegisterViewModel.kt: the `uiState` field and its
    transitions; `register` is split into `BeginRegister` and `CompleteRegister`. */
module RegisterViewModel {
  import Results
  import opened Models

  /** The registration screen's state: success carries no payload. */
  datatype RegisterUiState =
    | Initial
    | Loading
    | Success
    | Error(message: string)

  class RegisterViewModel {
    var uiState: RegisterUiState

    constructor ()
      ensures uiState == Initial
    {
      uiState := Initial;
    }

    /** `register` publishes `Loading` before it calls the use case. */
    method BeginRegister()
      modifies this
      ensures uiState == Loading
    {
      uiState := Loading;
    }

    /** `register` after the use case returned `result`: the server's reply is
        dropped on success; an error message is kept verbatim. */
    method CompleteRegister(result: Results.Result<AuthResponse>)
      modifies this
      ensures result.Success? ==> uiState == Success
      ensures result.Error? ==> uiState == Error(result.message)
      ensures result.Loading? ==> uiState == Loading
    {
      match result
      case Success(_) => uiState := Success;
      case Error(message) => uiState := Error(message);
      case Loading => uiState := Loading;
    }

    /** `resetState`: back to `Initial` from any state. */
    method ResetState()
      modifies this
      ensures uiState == Initial
    {
      uiState := Initial;
    }
  }
}
