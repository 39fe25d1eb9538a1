/** data/repository/ProductRepository.kt: the requests each operation sends and
    the mapping of responses and exceptions to `Result`. */
module ProductRepository {
  import opened Results
  import opened Text
  import opened Models
  import opened Transport

  const INVALID_DATA := "Datos inválidos"
  const UNAUTHORIZED := "No autorizado"
  const FORBIDDEN := "Acceso denegado"
  const NOT_FOUND := "Producto no encontrado"
  const DUPLICATE_NAME := "Ya existe un producto con ese nombre"
  const SERVER_ERROR := "Error interno del servidor"
  const UNKNOWN_PREFIX := "Error desconocido: "
  const NO_CONNECTION := "No hay conexión a internet"
  const TIMED_OUT := "Tiempo de espera agotado"
  const OTHER_PREFIX := "Error: "

  /** The status codes `handleHttpError` names. */
  predicate IsKnownCode(code: int) {
    code == 400 || code == 401 || code == 403 || code == 404 || code == 409 || code == 500
  }

  /** `handleHttpError(code)`. */
  function HandleHttpError<T>(code: int): (r: Result<T>)
    ensures r.Error?
    ensures code == 400 ==> r == Error(INVALID_DATA)
    ensures code == 401 ==> r == Error(UNAUTHORIZED)
    ensures code == 403 ==> r == Error(FORBIDDEN)
    ensures code == 404 ==> r == Error(NOT_FOUND)
    ensures code == 409 ==> r == Error(DUPLICATE_NAME)
    ensures code == 500 ==> r == Error(SERVER_ERROR)
    ensures !IsKnownCode(code) ==> r.message == UNKNOWN_PREFIX + IntToString(code)
  {
    match code
    case 400 => Error(INVALID_DATA)
    case 401 => Error(UNAUTHORIZED)
    case 403 => Error(FORBIDDEN)
    case 404 => Error(NOT_FOUND)
    case 409 => Error(DUPLICATE_NAME)
    case 500 => Error(SERVER_ERROR)
    case _ => Error(UNKNOWN_PREFIX + IntToString(code))
  }

  /** Which status code an error message of `handleHttpError` reports. */
  function HttpErrorCode(message: string): Option<int> {
    if message == INVALID_DATA then Some(400)
    else if message == UNAUTHORIZED then Some(401)
    else if message == FORBIDDEN then Some(403)
    else if message == NOT_FOUND then Some(404)
    else if message == DUPLICATE_NAME then Some(409)
    else if message == SERVER_ERROR then Some(500)
    else if |message| > |UNKNOWN_PREFIX| && message[..|UNKNOWN_PREFIX|] == UNKNOWN_PREFIX
    then ParseInt(message[|UNKNOWN_PREFIX|..])
    else None
  }

  /** Every status code can be read back from its message, so no two codes share one. */
  lemma HttpErrorCodeRoundTrip(code: int)
    requires IsInt(code)
    ensures HttpErrorCode(HandleHttpError<Unit>(code).message) == Some(code)
  {
    if !IsKnownCode(code) {
      var digits := IntToString(code);
      var m := UNKNOWN_PREFIX + digits;
      assert m[..|UNKNOWN_PREFIX|] == UNKNOWN_PREFIX && m[|UNKNOWN_PREFIX|..] == digits;
      assert m[6] == 'd';
      assert m != INVALID_DATA && m != UNAUTHORIZED && m != FORBIDDEN && m != NOT_FOUND;
      assert m != DUPLICATE_NAME && m != SERVER_ERROR;
      ParseIntOfIntToString(code);
    }
  }

  /** `handleException(e)`: never a success; an `HttpException` is reported like
      the same status in a response. */
  function HandleException<T>(e: Exception): (r: Result<T>)
    ensures r.Error?
    ensures e.kind.HttpException? ==> r.message == HandleHttpError<T>(e.kind.code).message
    ensures e.kind.UnknownHost? ==> r.message == NO_CONNECTION
    ensures e.kind.SocketTimeout? ==> r.message == TIMED_OUT
    ensures e.kind.OtherException? ==> r.message == OTHER_PREFIX + MessageText(e.message)
  {
    match e.kind
    case HttpException(code) => HandleHttpError(code)
    case UnknownHost => Error(NO_CONNECTION)
    case SocketTimeout => Error(TIMED_OUT)
    case OtherException => Error(OTHER_PREFIX + MessageText(e.message))
  }

  /** The result of `getAllProducts`, `createProduct` and `updateProduct` for one
      call: success exactly on a 2xx response with a body, carrying that body. */
  function ReceiveBody<T>(call: Call<T>): (r: Result<T>)
    ensures r.Success? <==> call.Response? && IsSuccessful(call.code) && call.body.Some?
    ensures r.Success? ==> r.data == call.body.value
    ensures call.Response? && IsSuccessful(call.code) && call.body.None? ==> r == Error(EMPTY_BODY)
    ensures call.Response? && !IsSuccessful(call.code) ==> r == HandleHttpError(call.code)
    ensures call.Thrown? ==> r == HandleException(call.e)
    ensures !r.Loading?
  {
    match call
    case Thrown(e) => HandleException(e)
    case Response(code, body, _) =>
      if IsSuccessful(code) then
        match body
        case Some(data) => Success(data)
        case None => Error(EMPTY_BODY)
      else HandleHttpError(code)
  }

  /** The result of `deleteProduct` for one call: success on any 2xx response,
      whatever its body. */
  function ReceiveDelete(call: Call<Unit>): (r: Result<Unit>)
    ensures r.Success? <==> call.Response? && IsSuccessful(call.code)
    ensures call.Response? && !IsSuccessful(call.code) ==> r == HandleHttpError(call.code)
    ensures call.Thrown? ==> r == HandleException(call.e)
    ensures !r.Loading?
  {
    match call
    case Thrown(e) => HandleException(e)
    case Response(code, _, _) => if IsSuccessful(code) then Success(Unit) else HandleHttpError(code)
  }

  /** The requests the four operations send (`quantity` as its decimal text part). */
  datatype ProductRequest =
    | GetProducts(cookie: string)
    | CreateProduct(cookie: string, name: string, quantity: string, image: Option<ImagePart>)
    | UpdateProduct(id: string, cookie: string, name: string, quantity: string, image: Option<ImagePart>)
    | DeleteProduct(id: string, cookie: string)

  function GetAllProductsRequest(token: string): ProductRequest {
    GetProducts(Cookie(token))
  }

  function CreateProductRequest(token: string, name: string, quantity: int, image: Option<ImagePart>): ProductRequest {
    CreateProduct(Cookie(token), name, IntToString(quantity), image)
  }

  function UpdateProductRequest(token: string, productId: string, name: string, quantity: int,
                                image: Option<ImagePart>): ProductRequest {
    UpdateProduct(productId, Cookie(token), name, IntToString(quantity), image)
  }

  function DeleteProductRequest(token: string, productId: string): ProductRequest {
    DeleteProduct(productId, Cookie(token))
  }

  /** Every request carries the caller's token in its cookie, and the quantity
      part of create/update reads back as the quantity given. */
  lemma RequestsCarryArguments(token: string, productId: string, name: string, quantity: int, image: Option<ImagePart>)
    requires IsInt(quantity)
    ensures CookieToken(GetAllProductsRequest(token).cookie) == Some(token)
    ensures var r := CreateProductRequest(token, name, quantity, image);
      CookieToken(r.cookie) == Some(token) && r.name == name && ParseInt(r.quantity) == Some(quantity) && r.image == image
    ensures var r := UpdateProductRequest(token, productId, name, quantity, image);
      r.id == productId && CookieToken(r.cookie) == Some(token) && r.name == name
      && ParseInt(r.quantity) == Some(quantity) && r.image == image
    ensures var r := DeleteProductRequest(token, productId);
      r.id == productId && CookieToken(r.cookie) == Some(token)
  {
    ParseIntOfIntToString(quantity);
  }
}
