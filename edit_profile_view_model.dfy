/** ui/screens/profile/EditProfileViewModel.kt: the `uiState` field and its
    transitions. Both actions publish `Loading` first (`Begin`); their endings are
    `CompleteLoadProfile` and `CompleteUpdateProfile`. */
module EditProfileViewModel {
  import Results
  import opened Models

  /** A loaded profile and a saved profile are distinct states. */
  datatype EditProfileUiState =
    | Initial
    | Loading
    | Loaded(userData: UserData)
    | UpdateSuccess(userData: UserData)
    | Error(message: string)

  class EditProfileViewModel {
    var uiState: EditProfileUiState

    constructor ()
      ensures uiState == Initial
    {
      uiState := Initial;
    }

    /** The first step of `loadProfile` and of `updateProfile`. */
    method Begin()
      modifies this
      ensures uiState == Loading
    {
      uiState := Loading;
    }

    /** `loadProfile` after `getProfile` returned `result`. */
    method CompleteLoadProfile(result: Results.Result<UserData>)
      modifies this
      ensures result.Success? ==> uiState == Loaded(result.data)
      ensures result.Error? ==> uiState == Error(result.message)
      ensures result.Loading? ==> uiState == Loading
    {
      match result
      case Success(userData) => uiState := Loaded(userData);
      case Error(message) => uiState := Error(message);
      case Loading => uiState := Loading;
    }

    /** `updateProfile` after the use case returned `result`: a success is
        reported as `UpdateSuccess`, never as `Loaded`. */
    method CompleteUpdateProfile(result: Results.Result<UserData>)
      modifies this
      ensures result.Success? ==> uiState == UpdateSuccess(result.data) && !uiState.Loaded?
      ensures result.Error? ==> uiState == Error(result.message)
      ensures result.Loading? ==> uiState == Loading
    {
      match result
      case Success(userData) => uiState := UpdateSuccess(userData);
      case Error(message) => uiState := Error(message);
      case Loading => uiState := Loading;
    }

    /** `resetState`: back to `Initial` from any state. */
    method ResetState()
      modifies this
      ensures uiState == Initial
    {
      uiState := Initial;
    }
  }
}
