/** domain/usecase/RegisterUseCase.kt: `invoke(firstName, lastName, email,
    password, confirmPassword)` up to the call to `UserRepository.register`. */
module RegisterUseCase {
  import opened Results
  import opened Text
  import opened Models
  import opened Guards

  const FILL_ALL_FIELDS := "Por favor complete todos los campos"
  const INVALID_EMAIL := "Por favor ingrese un email válido"
  const PASSWORDS_DIFFER := "Las contraseñas no coinciden"
  const PASSWORD_TOO_SHORT := "La contraseña debe tener al menos 6 caracteres"
  const MIN_PASSWORD_LENGTH := 6

  predicate AnyBlank(firstName: string, lastName: string, email: string, password: string, confirmPassword: string) {
    IsBlank(firstName) || IsBlank(lastName) || IsBlank(email) || IsBlank(password) || IsBlank(confirmPassword)
  }

  /** The decision `invoke` makes; `Delegated(user)` stands for `repository.register(user)`. */
  function Invoke(firstName: string, lastName: string, email: string, password: string, confirmPassword: string,
                  isValidEmail: string -> bool): (v: Verdict<RegisterUser>)
    ensures v == Rejected(FILL_ALL_FIELDS) <==> AnyBlank(firstName, lastName, email, password, confirmPassword)
    ensures v == Rejected(INVALID_EMAIL)
        <==> !AnyBlank(firstName, lastName, email, password, confirmPassword) && !isValidEmail(email)
    ensures v == Rejected(PASSWORDS_DIFFER)
        <==> !AnyBlank(firstName, lastName, email, password, confirmPassword) && isValidEmail(email)
             && password != confirmPassword
    ensures v == Rejected(PASSWORD_TOO_SHORT)
        <==> !AnyBlank(firstName, lastName, email, password, confirmPassword) && isValidEmail(email)
             && password == confirmPassword && Utf16Length(password) < MIN_PASSWORD_LENGTH
    ensures v.Delegated?
        <==> !AnyBlank(firstName, lastName, email, password, confirmPassword) && isValidEmail(email)
             && password == confirmPassword && Utf16Length(password) >= MIN_PASSWORD_LENGTH
    ensures v.Delegated? ==> v.args == RegisterUser(firstName, lastName, email, password)
  {
    if AnyBlank(firstName, lastName, email, password, confirmPassword) then Rejected(FILL_ALL_FIELDS)
    else if !isValidEmail(email) then Rejected(INVALID_EMAIL)
    else if password != confirmPassword then Rejected(PASSWORDS_DIFFER)
    else if Utf16Length(password) < MIN_PASSWORD_LENGTH then Rejected(PASSWORD_TOO_SHORT)
    else Delegated(RegisterUser(firstName, lastName, email, password))
  }

  /** The arms of the `when`, in source order. */
  function InvokeGuards(firstName: string, lastName: string, email: string, password: string, confirmPassword: string,
                        isValidEmail: string -> bool): seq<Guard> {
    [ Guard(AnyBlank(firstName, lastName, email, password, confirmPassword), FILL_ALL_FIELDS),
      Guard(!isValidEmail(email), INVALID_EMAIL),
      Guard(password != confirmPassword, PASSWORDS_DIFFER),
      Guard(Utf16Length(password) < MIN_PASSWORD_LENGTH, PASSWORD_TOO_SHORT) ]
  }

  /** The first arm that holds decides the message; the built `RegisterUser`
      drops `confirmPassword`. */
  lemma InvokeFollowsGuardOrder(firstName: string, lastName: string, email: string, password: string,
                                confirmPassword: string, isValidEmail: string -> bool)
    ensures Invoke(firstName, lastName, email, password, confirmPassword, isValidEmail)
         == Evaluate(InvokeGuards(firstName, lastName, email, password, confirmPassword, isValidEmail),
                     RegisterUser(firstName, lastName, email, password))
  {
    var gs := InvokeGuards(firstName, lastName, email, password, confirmPassword, isValidEmail);
    var user := RegisterUser(firstName, lastName, email, password);
    assert gs[1..][1..] == gs[2..] && gs[2..][1..] == gs[3..] && gs[3..][1..] == [];
    EvaluateStep(gs, user);
    EvaluateStep(gs[1..], user);
    EvaluateStep(gs[2..], user);
    EvaluateStep(gs[3..], user);
  }

  /** Mismatched passwords are reported as a mismatch even when both are too short. */
  lemma MismatchReportedBeforeLength(firstName: string, lastName: string, email: string, password: string,
                                     confirmPassword: string, isValidEmail: string -> bool)
    requires !AnyBlank(firstName, lastName, email, password, confirmPassword) && isValidEmail(email)
    requires password != confirmPassword
    requires Utf16Length(password) < MIN_PASSWORD_LENGTH && Utf16Length(confirmPassword) < MIN_PASSWORD_LENGTH
    ensures Invoke(firstName, lastName, email, password, confirmPassword, isValidEmail) == Rejected(PASSWORDS_DIFFER)
  {
  }

  /** A password of three emoji is six UTF-16 units long, so it is long enough. */
  lemma EmojiPasswordIsLongEnough(firstName: string, lastName: string, email: string, isValidEmail: string -> bool)
    requires !IsBlank(firstName) && !IsBlank(lastName) && !IsBlank(email) && isValidEmail(email)
    ensures var p := "\U{1F600}\U{1F600}\U{1F600}";
            Invoke(firstName, lastName, email, p, p, isValidEmail) == Delegated(RegisterUser(firstName, lastName, email, p))
  {
    var p := "\U{1F600}\U{1F600}\U{1F600}";
    Utf16LengthOfEmoji();
    assert !IsWhitespace(p[0]);
  }

  /** `invoke` as the app calls it: `register` is consulted only when every arm
      of the `when` passes, and then receives the built user. */
  lemma InvokeReachesRepositoryOnlyWhenValid<T>(firstName: string, lastName: string, email: string, password: string,
                                                confirmPassword: string, isValidEmail: string -> bool,
                                                register: RegisterUser -> Result<T>)
    ensures var r := Run(Invoke(firstName, lastName, email, password, confirmPassword, isValidEmail), register);
      && (Invoke(firstName, lastName, email, password, confirmPassword, isValidEmail).Delegated?
          ==> r == register(RegisterUser(firstName, lastName, email, password)))
      && (Invoke(firstName, lastName, email, password, confirmPassword, isValidEmail).Rejected?
          ==> r.Error? && r.message in {FILL_ALL_FIELDS, INVALID_EMAIL, PASSWORDS_DIFFER, PASSWORD_TOO_SHORT})
  {
  }
}
