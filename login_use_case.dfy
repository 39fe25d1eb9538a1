/** domain/usecase/LoginUseCase.kt: `invoke(email, password)` up to the call to
    `UserRepository.login`. The email pattern is a parameter: the platform's
    email regex is not part of this model. */
module LoginUseCase {
  import opened Results
  import opened Text
  import opened Guards

  const FILL_ALL_FIELDS := "Por favor complete todos los campos"
  const INVALID_EMAIL := "Por favor ingrese un email válido"

  /** The decision `invoke` makes; `Delegated((email, password))` stands for
      `repository.login(email, password)`. */
  function Invoke(email: string, password: string, isValidEmail: string -> bool): (v: Verdict<(string, string)>)
    ensures v == Rejected(FILL_ALL_FIELDS) <==> IsBlank(email) || IsBlank(password)
    ensures v == Rejected(INVALID_EMAIL) <==> !IsBlank(email) && !IsBlank(password) && !isValidEmail(email)
    ensures v.Delegated? <==> !IsBlank(email) && !IsBlank(password) && isValidEmail(email)
    ensures v.Delegated? ==> v.args == (email, password)
  {
    if IsBlank(email) || IsBlank(password) then Rejected(FILL_ALL_FIELDS)
    else if !isValidEmail(email) then Rejected(INVALID_EMAIL)
    else Delegated((email, password))
  }

  /** The guards of `invoke`, in the order the code tests them. */
  function InvokeGuards(email: string, password: string, isValidEmail: string -> bool): seq<Guard> {
    [ Guard(IsBlank(email) || IsBlank(password), FILL_ALL_FIELDS),
      Guard(!isValidEmail(email), INVALID_EMAIL) ]
  }

  /** `invoke` is exactly its guard chain read in order: blank first, then format. */
  lemma InvokeFollowsGuardOrder(email: string, password: string, isValidEmail: string -> bool)
    ensures Invoke(email, password, isValidEmail)
         == Evaluate(InvokeGuards(email, password, isValidEmail), (email, password))
  {
    var gs := InvokeGuards(email, password, isValidEmail);
    assert gs[1..][1..] == [];
  }

  /** `invoke` as the app calls it: a failed check answers with its message and
      `login` is never consulted; otherwise `login`'s reply is returned as is. */
  lemma InvokeReachesRepositoryOnlyWhenValid<T>(email: string, password: string, isValidEmail: string -> bool,
                                                login: ((string, string)) -> Result<T>)
    ensures Run(Invoke(email, password, isValidEmail), login)
         == if IsBlank(email) || IsBlank(password) then Error(FILL_ALL_FIELDS)
            else if !isValidEmail(email) then Error(INVALID_EMAIL)
            else login((email, password))
  {
  }
}
