/**
 * The delivery step's form: eight text fields and a delivery/pickup toggle,
 * initialised from what the checkout holds, with the browser's `required`
 * check (name and phone always, address, city and ZIP only for delivery)
 * deciding whether submitting emits the record.
 */
module DeliveryInfo {
  import opened Wrappers

  datatype FormData = FormData(
    name: string, phone: string, address: string, apartment: string, city: string,
    zipCode: string, deliveryInstructions: string, deliveryTime: string)

  datatype Field = Name | Phone | Address | Apartment | City | ZipCode | DeliveryInstructions | DeliveryTime

  /** The `initialData` keys the form reads; each may be absent. */
  datatype InitialDelivery = InitialDelivery(
    deliveryType: Option<string>, name: Option<string>, phone: Option<string>, address: Option<string>,
    apartment: Option<string>, city: Option<string>, zipCode: Option<string>,
    deliveryInstructions: Option<string>, deliveryTime: Option<string>)

  /** `{...formData, deliveryType}` as handed to `onUpdate` (its ISO timestamp is not modelled). */
  datatype DeliveryRecord = DeliveryRecord(form: FormData, deliveryType: string)

  datatype SubmitEffect = OnUpdate(record: DeliveryRecord) | OnNext

  datatype DeliveryState = DeliveryState(deliveryType: string, formData: FormData)

  /** `formData[field]` */
  function Get(form: FormData, field: Field): string {
    match field
    case Name => form.name
    case Phone => form.phone
    case Address => form.address
    case Apartment => form.apartment
    case City => form.city
    case ZipCode => form.zipCode
    case DeliveryInstructions => form.deliveryInstructions
    case DeliveryTime => form.deliveryTime
  }

  /** `{...prev, [name]: value}` */
  function WithField(form: FormData, field: Field, value: string): FormData {
    match field
    case Name => form.(name := value)
    case Phone => form.(phone := value)
    case Address => form.(address := value)
    case Apartment => form.(apartment := value)
    case City => form.(city := value)
    case ZipCode => form.(zipCode := value)
    case DeliveryInstructions => form.(deliveryInstructions := value)
    case DeliveryTime => form.(deliveryTime := value)
  }

  /** The `useState` initial values: each key or the empty string, `'asap'` and `'delivery'` by default. */
  function Initial(data: InitialDelivery): DeliveryState {
    DeliveryState(
      OrElse(data.deliveryType, "delivery"),
      FormData(OrElse(data.name, ""), OrElse(data.phone, ""), OrElse(data.address, ""),
        OrElse(data.apartment, ""), OrElse(data.city, ""), OrElse(data.zipCode, ""),
        OrElse(data.deliveryInstructions, ""), OrElse(data.deliveryTime, "asap")))
  }

  /** The address inputs are rendered, and so required, only for delivery. */
  predicate AddressShown(deliveryType: string) {
    deliveryType == "delivery"
  }

  /** The browser's `required` check on the rendered inputs. */
  predicate RequiredFilled(form: FormData, deliveryType: string) {
    form.name != "" && form.phone != "" &&
    (AddressShown(deliveryType) ==> form.address != "" && form.city != "" && form.zipCode != "")
  }

  /** A submitted record read back as `initialData`: every key present. */
  function Reread(r: DeliveryRecord): InitialDelivery {
    InitialDelivery(Some(r.deliveryType), Some(r.form.name), Some(r.form.phone), Some(r.form.address),
      Some(r.form.apartment), Some(r.form.city), Some(r.form.zipCode),
      Some(r.form.deliveryInstructions), Some(r.form.deliveryTime))
  }

  // ------------------------------------------------------------------ lemmas

  /** `handleChange` sets the named field to the value and leaves every other field as it was. */
  lemma WithFieldEffect(form: FormData, field: Field, value: string, other: Field)
    ensures Get(WithField(form, field, value), field) == value
    ensures other != field ==> Get(WithField(form, field, value), other) == Get(form, other)
  {
  }

  /** Each field of the initial form is the given key, or its default when the key is absent or empty. */
  lemma InitialDefaults(data: InitialDelivery)
    ensures data == InitialDelivery(None, None, None, None, None, None, None, None, None) ==>
      Initial(data) == DeliveryState("delivery", FormData("", "", "", "", "", "", "", "asap"))
    ensures data.name.Some? && data.name.value != "" ==> Initial(data).formData.name == data.name.value
    ensures data.deliveryTime.Some? && data.deliveryTime.value == "" ==> Initial(data).formData.deliveryTime == "asap"
    ensures data.deliveryType.Some? && data.deliveryType.value == "" ==> Initial(data).deliveryType == "delivery"
  {
  }

  /**
   * Mounting the form on a record it submitted restores its state exactly when
   * the delivery time and type are non-empty (an empty one falls back to its
   * default).
   */
  lemma RereadRestores(r: DeliveryRecord)
    ensures Initial(Reread(r)) == DeliveryState(r.deliveryType, r.form) <==>
      r.form.deliveryTime != "" && r.deliveryType != ""
  {
    if Initial(Reread(r)) == DeliveryState(r.deliveryType, r.form) {
      assert Initial(Reread(r)).formData.deliveryTime == r.form.deliveryTime;
      assert Initial(Reread(r)).deliveryType == r.deliveryType;
    }
  }

  /**
   * Name and phone are always required; address, city and ZIP only for delivery,
   * so a pickup goes through with them empty.
   */
  lemma RequiredFields(form: FormData)
    ensures RequiredFilled(form, "pickup") <==> form.name != "" && form.phone != ""
    ensures RequiredFilled(form, "delivery") <==>
      form.name != "" && form.phone != "" && form.address != "" && form.city != "" && form.zipCode != ""
    ensures RequiredFilled(form, "delivery") ==> RequiredFilled(form, "pickup")
  {
  }

  // ------------------------------------------------------------------- state

  class Form {
    var deliveryType: string
    var formData: FormData

    function View(): DeliveryState
      reads this
    {
      DeliveryState(deliveryType, formData)
    }

    constructor (initialData: InitialDelivery)
      ensures View() == Initial(initialData)
    {
      var s := Initial(initialData);
      deliveryType, formData := s.deliveryType, s.formData;
    }

    method HandleChange(field: Field, value: string)
      modifies this
      ensures View() == old(View()).(formData := WithField(old(formData), field, value))
    {
      formData := WithField(formData, field, value);
    }

    /** The Delivery and Pickup buttons: the form data, hidden fields included, is kept. */
    method SetDeliveryType(t: string)
      modifies this
      ensures View() == old(View()).(deliveryType := t)
    {
      deliveryType := t;
    }

    /**
     * The submit button: the browser refuses while a rendered required field is
     * empty; otherwise the record goes to `onUpdate`, then `onNext` runs.
     */
    method HandleSubmit() returns (effects: seq<SubmitEffect>)
      ensures !RequiredFilled(formData, deliveryType) ==> effects == []
      ensures RequiredFilled(formData, deliveryType) ==>
        effects == [OnUpdate(DeliveryRecord(formData, deliveryType)), OnNext]
    {
      if !RequiredFilled(formData, deliveryType) {
        return [];
      }
      effects := [OnUpdate(DeliveryRecord(formData, deliveryType)), OnNext];
    }
  }
}
