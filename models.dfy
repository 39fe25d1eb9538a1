/** The records exchanged with the server (the data classes under data/model and the
    `User`/`RegisterUser` bodies referenced by the repositories). */
module Models {
  import opened Results

  /** data/model/UserData.kt */
  datatype UserData = UserData(id: string, firstName: string, lastName: string, email: string, photo: string)

  /** data/model/AuthResponse.kt: the login/register reply; `data` is nullable. */
  datatype AuthData = AuthData(token: string, user: UserData)
  datatype AuthResponse = AuthResponse(message: Option<string>, data: Option<AuthData>)

  /** data/model/ProductData.kt: `id` is "" until the server assigns one. */
  datatype ProductData = ProductData(id: string, name: string, quantity: int, imagePath: Option<string>)

  /** The login body: the credentials as typed. */
  datatype User = User(email: string, password: string)

  /** The registration body: no `confirmPassword` field. */
  datatype RegisterUser = RegisterUser(firstName: string, lastName: string, email: string, password: string)

  /** A multipart image part, built from a captured photo; opaque to this model. */
  datatype ImagePart = ImagePart(fileName: string)
}
