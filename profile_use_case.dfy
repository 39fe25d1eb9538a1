/** domain/usecase/ProfileUseCase.kt: `getProfile` and `updateProfile` up to the
    calls to `UserRepository.getProfile` / `UserRepository.updateProfile`. */
module ProfileUseCase {
  import opened Results
  import opened Text
  import opened Guards

  const INVALID_CREDENTIALS := "Credenciales de autenticación inválidas"
  const FILL_ALL_FIELDS := "Por favor complete todos los campos"
  const FIRST_NAME_TOO_SHORT := "El nombre debe tener al menos 2 caracteres"
  const LAST_NAME_TOO_SHORT := "El apellido debe tener al menos 2 caracteres"
  const MIN_NAME_LENGTH := 2

  /** `getProfile(userId, token)`: only the credentials are checked. */
  function GetProfile(userId: string, token: string): (v: Verdict<(string, string)>)
    ensures v == Rejected(INVALID_CREDENTIALS) <==> IsBlank(userId) || IsBlank(token)
    ensures v.Delegated? <==> !IsBlank(userId) && !IsBlank(token)
    ensures v.Delegated? ==> v.args == (userId, token)
  {
    if IsBlank(userId) || IsBlank(token) then Rejected(INVALID_CREDENTIALS)
    else Delegated((userId, token))
  }

  /** `updateProfile(userId, token, firstName, lastName)`: credentials, then
      blank names, then the first name's length, then the last name's. */
  function UpdateProfile(userId: string, token: string, firstName: string, lastName: string)
    : (v: Verdict<(string, string, string, string)>)
    ensures v == Rejected(INVALID_CREDENTIALS) <==> IsBlank(userId) || IsBlank(token)
    ensures v == Rejected(FILL_ALL_FIELDS)
        <==> !IsBlank(userId) && !IsBlank(token) && (IsBlank(firstName) || IsBlank(lastName))
    ensures v == Rejected(FIRST_NAME_TOO_SHORT)
        <==> !IsBlank(userId) && !IsBlank(token) && !IsBlank(firstName) && !IsBlank(lastName)
             && Utf16Length(firstName) < MIN_NAME_LENGTH
    ensures v == Rejected(LAST_NAME_TOO_SHORT)
        <==> !IsBlank(userId) && !IsBlank(token) && !IsBlank(firstName) && !IsBlank(lastName)
             && Utf16Length(firstName) >= MIN_NAME_LENGTH && Utf16Length(lastName) < MIN_NAME_LENGTH
    ensures v.Delegated?
        <==> !IsBlank(userId) && !IsBlank(token) && !IsBlank(firstName) && !IsBlank(lastName)
             && Utf16Length(firstName) >= MIN_NAME_LENGTH && Utf16Length(lastName) >= MIN_NAME_LENGTH
    ensures v.Delegated? ==> v.args == (userId, token, firstName, lastName)
  {
    if IsBlank(userId) || IsBlank(token) then Rejected(INVALID_CREDENTIALS)
    else if IsBlank(firstName) || IsBlank(lastName) then Rejected(FILL_ALL_FIELDS)
    else if Utf16Length(firstName) < MIN_NAME_LENGTH then Rejected(FIRST_NAME_TOO_SHORT)
    else if Utf16Length(lastName) < MIN_NAME_LENGTH then Rejected(LAST_NAME_TOO_SHORT)
    else Delegated((userId, token, firstName, lastName))
  }

  /** The arms of `updateProfile`'s `when`, in source order. */
  function UpdateProfileGuards(userId: string, token: string, firstName: string, lastName: string): seq<Guard> {
    [ Guard(IsBlank(userId) || IsBlank(token), INVALID_CREDENTIALS),
      Guard(IsBlank(firstName) || IsBlank(lastName), FILL_ALL_FIELDS),
      Guard(Utf16Length(firstName) < MIN_NAME_LENGTH, FIRST_NAME_TOO_SHORT),
      Guard(Utf16Length(lastName) < MIN_NAME_LENGTH, LAST_NAME_TOO_SHORT) ]
  }

  /** `updateProfile` is its guard chain read in order. */
  lemma UpdateProfileFollowsGuardOrder(userId: string, token: string, firstName: string, lastName: string)
    ensures UpdateProfile(userId, token, firstName, lastName)
         == Evaluate(UpdateProfileGuards(userId, token, firstName, lastName), (userId, token, firstName, lastName))
  {
    var gs := UpdateProfileGuards(userId, token, firstName, lastName);
    var args := (userId, token, firstName, lastName);
    assert gs[1..][1..] == gs[2..] && gs[2..][1..] == gs[3..] && gs[3..][1..] == [];
    EvaluateStep(gs, args);
    EvaluateStep(gs[1..], args);
    EvaluateStep(gs[2..], args);
    EvaluateStep(gs[3..], args);
  }

  /** The single check of `getProfile`. */
  function GetProfileGuards(userId: string, token: string): seq<Guard> {
    [ Guard(IsBlank(userId) || IsBlank(token), INVALID_CREDENTIALS) ]
  }

  /** `getProfile` is its one check read by the reference chain. */
  lemma GetProfileFollowsGuardOrder(userId: string, token: string)
    ensures GetProfile(userId, token) == Evaluate(GetProfileGuards(userId, token), (userId, token))
  {
    var gs := GetProfileGuards(userId, token);
    assert gs[1..] == [];
  }

  /** `updateProfile` as the app calls it: the repository is consulted only when
      every arm passes, and its reply is returned as is. */
  lemma UpdateProfileReachesRepositoryOnlyWhenValid<T>(userId: string, token: string, firstName: string, lastName: string,
                                                       update: ((string, string, string, string)) -> Result<T>)
    ensures var v := UpdateProfile(userId, token, firstName, lastName);
      && (v.Delegated? ==> Run(v, update) == update((userId, token, firstName, lastName)))
      && (v.Rejected? ==>
            Run(v, update).Error? && Run(v, update).message in {INVALID_CREDENTIALS, FILL_ALL_FIELDS, FIRST_NAME_TOO_SHORT, LAST_NAME_TOO_SHORT})
  {
  }
}
