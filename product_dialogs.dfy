/** The add- and edit-product dialogs: the remembered text fields each edit
    updates, and the confirm button's decision over (name, quantity text). */
module ProductDialogs {
  import opened Results
  import opened Text
  import opened Models

  const NAME_REQUIRED := "El nombre es requerido"
  const QUANTITY_REQUIRED := "La cantidad es requerida"
  const QUANTITY_NOT_A_NUMBER := "La cantidad debe ser un número válido"
  const QUANTITY_NEGATIVE := "La cantidad debe ser mayor o igual a 0"
  const QUANTITY_INVALID := "Cantidad inválida"
  const CAPTURE_FAILED := "Error al capturar la imagen"

  /** What pressing the confirm button does: show an error, or hand the name
      and the parsed quantity to `onConfirm`. */
  datatype Decision = Refused(error: string) | Submitted(name: string, quantity: int)

  /** `String.filter { it.isDigit() }`: the digits of `s`, in order. */
  function DigitsOnly(s: string): (r: string)
    ensures AllDigits(r) && |r| <= |s|
    ensures AllDigits(s) ==> r == s
  {
    if s == [] then []
    else (if IsDigit(s[0]) then [s[0]] else []) + DigitsOnly(s[1..])
  }

  /** No digit is lost or duplicated: each digit occurs as often in the result
      as in the input. */
  lemma {:induction false} DigitsOnlyKeepsEveryDigit(s: string)
    ensures forall c :: IsDigit(c) ==> multiset(DigitsOnly(s))[c] == multiset(s)[c]
    decreases |s|
  {
    if s != [] {
      assert s == [s[0]] + s[1..];
      DigitsOnlyKeepsEveryDigit(s[1..]);
    }
  }

  /** The filter keeps a digit and drops anything else. */
  lemma DigitsOnlySingle(c: char)
    ensures DigitsOnly([c]) == if IsDigit(c) then [c] else []
  {
    assert [c][1..] == [];
  }

  /** The filter works piece by piece, so the kept digits stay in their order. */
  lemma {:induction false} DigitsOnlyAppend(a: string, b: string)
    ensures DigitsOnly(a + b) == DigitsOnly(a) + DigitsOnly(b)
    decreases |a|
  {
    if a != [] {
      var ab := a + b;
      var head := if IsDigit(a[0]) then [a[0]] else [];
      assert ab != [] && ab[0] == a[0] && ab[1..] == a[1..] + b;
      assert DigitsOnly(ab) == head + DigitsOnly(ab[1..]);
      DigitsOnlyAppend(a[1..], b);
      assert DigitsOnly(a) == head + DigitsOnly(a[1..]);
      assert head + (DigitsOnly(a[1..]) + DigitsOnly(b)) == (head + DigitsOnly(a[1..])) + DigitsOnly(b);
    } else {
      assert a + b == b;
    }
  }

  /** The add dialog's confirm handler; the quantity is read with `toIntOrNull`. */
  function AddConfirm(name: string, quantity: string): (d: Decision)
    ensures d == Refused(NAME_REQUIRED) <==> IsBlank(name)
    ensures d == Refused(QUANTITY_REQUIRED) <==> !IsBlank(name) && IsBlank(quantity)
    ensures d == Refused(QUANTITY_NOT_A_NUMBER) <==>
      !IsBlank(name) && !IsBlank(quantity) && ParseInt(quantity).None?
    ensures d == Refused(QUANTITY_NEGATIVE) <==>
      !IsBlank(name) && !IsBlank(quantity) && ParseInt(quantity).Some? && ParseInt(quantity).value < 0
    ensures d.Submitted? <==>
      !IsBlank(name) && !IsBlank(quantity) && ParseInt(quantity).Some? && ParseInt(quantity).value >= 0
    ensures d.Submitted? ==> d.name == name && d.quantity == ParseInt(quantity).value
  {
    if IsBlank(name) then Refused(NAME_REQUIRED)
    else if IsBlank(quantity) then Refused(QUANTITY_REQUIRED)
    else match ParseInt(quantity)
      case None => Refused(QUANTITY_NOT_A_NUMBER)
      case Some(q) => if q < 0 then Refused(QUANTITY_NEGATIVE) else Submitted(name, q)
  }

  /** The edit dialog's confirm handler; the quantity is read with `toInt`,
      whose `NumberFormatException` is caught. */
  function EditConfirm(name: string, quantity: string): (d: Decision)
    ensures d == Refused(NAME_REQUIRED) <==> IsBlank(name)
    ensures d == Refused(QUANTITY_REQUIRED) <==> !IsBlank(name) && IsBlank(quantity)
    ensures d == Refused(QUANTITY_INVALID) <==>
      !IsBlank(name) && !IsBlank(quantity) && ParseInt(quantity).None?
    ensures d == Refused(QUANTITY_NEGATIVE) <==>
      !IsBlank(name) && !IsBlank(quantity) && ParseInt(quantity).Some? && ParseInt(quantity).value < 0
    ensures d.Submitted? <==>
      !IsBlank(name) && !IsBlank(quantity) && ParseInt(quantity).Some? && ParseInt(quantity).value >= 0
    ensures d.Submitted? ==> d.name == name && d.quantity == ParseInt(quantity).value
  {
    if IsBlank(name) then Refused(NAME_REQUIRED)
    else if IsBlank(quantity) then Refused(QUANTITY_REQUIRED)
    else match ParseInt(quantity)
      case None => Refused(QUANTITY_INVALID)
      case Some(q) => if q >= 0 then Submitted(name, q) else Refused(QUANTITY_NEGATIVE)
  }

  /** The two dialogs decide alike; they differ only in the message for
      quantity text that does not parse. */
  lemma EditDecidesLikeAdd(name: string, quantity: string)
    ensures AddConfirm(name, quantity) == Refused(QUANTITY_NOT_A_NUMBER) <==>
            EditConfirm(name, quantity) == Refused(QUANTITY_INVALID)
    ensures AddConfirm(name, quantity) != Refused(QUANTITY_NOT_A_NUMBER) ==>
            AddConfirm(name, quantity) == EditConfirm(name, quantity)
  {
  }

  /** Whatever reaches `onConfirm` has a non-blank name and a quantity that is
      a non-negative `Int`. */
  lemma SubmissionsAreValid(name: string, quantity: string)
    ensures AddConfirm(name, quantity).Submitted? ==>
      !IsBlank(name) && 0 <= AddConfirm(name, quantity).quantity <= INT_MAX
    ensures EditConfirm(name, quantity).Submitted? ==>
      !IsBlank(name) && 0 <= EditConfirm(name, quantity).quantity <= INT_MAX
  {
  }

  /** With digit-only quantity text (what the add dialog's filter keeps), the
      negative-quantity error cannot occur, and the not-a-number error occurs
      only when the digits overflow an `Int`. */
  lemma {:induction false} DigitTextNeverNegative(name: string, quantity: string)
    requires AllDigits(quantity)
    ensures AddConfirm(name, quantity) != Refused(QUANTITY_NEGATIVE)
    ensures AddConfirm(name, quantity) == Refused(QUANTITY_NOT_A_NUMBER) <==>
      !IsBlank(name) && quantity != [] && DigitsValue(quantity) > INT_MAX
  {
    ParseIntOfDigits(quantity);
    if quantity != [] {
      assert !IsWhitespace(quantity[0]);
    }
  }

  /** Confirming the edit dialog without touching the quantity resubmits the
      product's own quantity, or reports it negative. */
  lemma {:induction false} UntouchedQuantityRoundTrips(name: string, product: ProductData)
    requires IsInt(product.quantity) && !IsBlank(name)
    ensures product.quantity >= 0 ==>
      EditConfirm(name, IntToString(product.quantity)) == Submitted(name, product.quantity)
    ensures product.quantity < 0 ==>
      EditConfirm(name, IntToString(product.quantity)) == Refused(QUANTITY_NEGATIVE)
  {
    var s := IntToString(product.quantity);
    ParseIntOfIntToString(product.quantity);
    assert !IsWhitespace(s[0]);
  }

  class AddProductDialog {
    var name: string
    var quantity: string
    var error: Option<string>
    var imageUri: Option<string>
    var showCamera: bool

    /** Every edit goes through the digit filter, so the quantity text is
        always digits only. */
    predicate Valid()
      reads this
    {
      AllDigits(quantity)
    }

    constructor ()
      ensures Valid()
      ensures name == [] && quantity == [] && error == None
      ensures imageUri == None && !showCamera
    {
      name := [];
      quantity := [];
      error := None;
      imageUri := None;
      showCamera := false;
    }

    method OnNameChange(text: string)
      requires Valid()
      modifies this
      ensures Valid()
      ensures name == text && error == None
      ensures quantity == old(quantity) && imageUri == old(imageUri) && showCamera == old(showCamera)
    {
      name := text;
      error := None;
    }

    method OnQuantityChange(text: string)
      requires Valid()
      modifies this
      ensures Valid()
      ensures quantity == DigitsOnly(text) && error == None
      ensures name == old(name) && imageUri == old(imageUri) && showCamera == old(showCamera)
    {
      quantity := DigitsOnly(text);
      error := None;
    }

    method OpenCamera()
      requires Valid()
      modifies this
      ensures Valid()
      ensures showCamera
      ensures name == old(name) && quantity == old(quantity)
      ensures error == old(error) && imageUri == old(imageUri)
    {
      showCamera := true;
    }

    method OnImageCaptured(uri: string)
      requires Valid()
      modifies this
      ensures Valid()
      ensures imageUri == Some(uri) && !showCamera
      ensures name == old(name) && quantity == old(quantity) && error == old(error)
    {
      imageUri := Some(uri);
      showCamera := false;
    }

    method OnCameraError()
      requires Valid()
      modifies this
      ensures Valid()
      ensures error == Some(CAPTURE_FAILED) && !showCamera
      ensures name == old(name) && quantity == old(quantity) && imageUri == old(imageUri)
    {
      error := Some(CAPTURE_FAILED);
      showCamera := false;
    }

    /** The confirm button: either shows the decision's error, or returns what
        `onConfirm` receives (name, quantity and the captured image). The
        negative-quantity error never appears here. */
    method Confirm() returns (submitted: Option<(string, int, Option<string>)>)
      requires Valid()
      modifies this
      ensures Valid()
      ensures name == old(name) && quantity == old(quantity)
      ensures imageUri == old(imageUri) && showCamera == old(showCamera)
      ensures AddConfirm(name, quantity).Refused? ==>
        submitted == None && error == Some(AddConfirm(name, quantity).error)
      ensures AddConfirm(name, quantity).Submitted? ==>
        submitted == Some((name, AddConfirm(name, quantity).quantity, imageUri)) && error == old(error)
      ensures error != Some(QUANTITY_NEGATIVE) || old(error) == Some(QUANTITY_NEGATIVE)
    {
      DigitTextNeverNegative(name, quantity);
      match AddConfirm(name, quantity)
      case Refused(message) =>
        error := Some(message);
        submitted := None;
      case Submitted(n, q) =>
        submitted := Some((n, q, imageUri));
    }
  }

  class EditProductDialog {
    const product: ProductData
    var name: string
    var quantity: string
    var error: Option<string>
    var imageUri: Option<string>
    var showCamera: bool

    /** The quantity text is the product's own rendering until an edit is
        accepted, and digits only after that. */
    predicate Valid()
      reads this
    {
      quantity == IntToString(product.quantity) || AllDigits(quantity)
    }

    /** Starts from the product's name and the decimal text of its quantity. */
    constructor (product: ProductData)
      ensures Valid()
      ensures this.product == product
      ensures name == product.name && quantity == IntToString(product.quantity)
      ensures error == None && imageUri == None && !showCamera
    {
      this.product := product;
      name := product.name;
      quantity := IntToString(product.quantity);
      error := None;
      imageUri := None;
      showCamera := false;
    }

    method OnNameChange(text: string)
      requires Valid()
      modifies this
      ensures Valid()
      ensures name == text && error == None
      ensures quantity == old(quantity) && imageUri == old(imageUri) && showCamera == old(showCamera)
    {
      name := text;
      error := None;
    }

    /** An edit is taken only when it leaves the field empty or all digits;
        otherwise the text and the error stay as they were. */
    method OnQuantityChange(text: string)
      requires Valid()
      modifies this
      ensures Valid()
      ensures AllDigits(text) ==> quantity == text && error == None
      ensures !AllDigits(text) ==> quantity == old(quantity) && error == old(error)
      ensures name == old(name) && imageUri == old(imageUri) && showCamera == old(showCamera)
    {
      if text == [] || AllDigits(text) {
        quantity := text;
        error := None;
      }
    }

    method OpenCamera()
      requires Valid()
      modifies this
      ensures Valid()
      ensures showCamera
      ensures name == old(name) && quantity == old(quantity)
      ensures error == old(error) && imageUri == old(imageUri)
    {
      showCamera := true;
    }

    method OnImageCaptured(uri: string)
      requires Valid()
      modifies this
      ensures Valid()
      ensures imageUri == Some(uri) && !showCamera
      ensures name == old(name) && quantity == old(quantity) && error == old(error)
    {
      imageUri := Some(uri);
      showCamera := false;
    }

    method OnCameraError()
      requires Valid()
      modifies this
      ensures Valid()
      ensures error == Some(CAPTURE_FAILED) && !showCamera
      ensures name == old(name) && quantity == old(quantity) && imageUri == old(imageUri)
    {
      error := Some(CAPTURE_FAILED);
      showCamera := false;
    }

    /** The save button: either shows the decision's error, or returns what
        `onConfirm` receives. */
    method Confirm() returns (submitted: Option<(string, int, Option<string>)>)
      requires Valid()
      modifies this
      ensures Valid()
      ensures name == old(name) && quantity == old(quantity)
      ensures imageUri == old(imageUri) && showCamera == old(showCamera)
      ensures EditConfirm(name, quantity).Refused? ==>
        submitted == None && error == Some(EditConfirm(name, quantity).error)
      ensures EditConfirm(name, quantity).Submitted? ==>
        submitted == Some((name, EditConfirm(name, quantity).quantity, imageUri)) && error == old(error)
    {
      match EditConfirm(name, quantity)
      case Refused(message) =>
        error := Some(message);
        submitted := None;
      case Submitted(n, q) =>
        submitted := Some((n, q, imageUri));
    }
  }
}
