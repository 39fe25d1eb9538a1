/** ui/screens/home/HomeViewModel.kt: the `uiState` field and its transitions;
    `loadUserProfile` is split into `BeginLoadUserProfile` and `CompleteLoadUserProfile`. */
module HomeViewModel {
  import Results
  import opened Models

  datatype HomeUiState =
    | Initial
    | Loading
    | Success(userData: UserData)
    | Error(message: string)

  class HomeViewModel {
    var uiState: HomeUiState

    constructor ()
      ensures uiState == Initial
    {
      uiState := Initial;
    }

    /** `loadUserProfile` publishes `Loading` first. */
    method BeginLoadUserProfile()
      modifies this
      ensures uiState == Loading
    {
      uiState := Loading;
    }

    /** `loadUserProfile` after the use case returned `result`. */
    method CompleteLoadUserProfile(result: Results.Result<UserData>)
      modifies this
      ensures result.Success? ==> uiState == Success(result.data)
      ensures result.Error? ==> uiState == Error(result.message)
      ensures result.Loading? ==> uiState == Loading
    {
      match result
      case Success(userData) => uiState := Success(userData);
      case Error(message) => uiState := Error(message);
      case Loading => uiState := Loading;
    }

    /** `logout`: back to `Initial` from any state. */
    method Logout()
      modifies this
      ensures uiState == Initial
    {
      uiState := Initial;
    }
  }
}
