/** ui/screens/login/LoginViewModel.kt: the `uiState` field and its transitions.
    The coroutine of `login` is split into `BeginLogin` (before the use case is
    consulted) and `CompleteLogin` (once it has answered). */
module LoginViewModel {
  import Results
  import opened Models

  const AUTH_DATA_MISSING := "Error en los datos de autenticación"

  datatype LoginUiState =
    | Initial
    | Loading
    | Success(authData: AuthData)
    | Error(message: string)

  class LoginViewModel {
    var uiState: LoginUiState

    constructor ()
      ensures uiState == Initial
    {
      uiState := Initial;
    }

    /** `login` publishes `Loading` before it calls the use case. */
    method BeginLogin()
      modifies this
      ensures uiState == Loading
    {
      uiState := Loading;
    }

    /** `login` after the use case returned `result`: the reply's auth data, or the
        use case's message verbatim. */
    method CompleteLogin(result: Results.Result<AuthResponse>)
      modifies this
      ensures result.Success? && result.data.data.Some? ==> uiState == Success(result.data.data.value)
      ensures result.Success? && result.data.data.None? ==> uiState == Error(AUTH_DATA_MISSING)
      ensures result.Error? ==> uiState == Error(result.message)
      ensures result.Loading? ==> uiState == Loading
    {
      match result
      case Success(response) =>
        match response.data {
          case Some(authData) => uiState := Success(authData);
          case None => uiState := Error(AUTH_DATA_MISSING);
        }
      case Error(message) => uiState := Error(message);
      case Loading => uiState := Loading;
    }

    /** `resetState`: back to `Initial` from any state (so twice is the same as once). */
    method ResetState()
      modifies this
      ensures uiState == Initial
    {
      uiState := Initial;
    }
  }
}
