/** The expert-consultation wizard (`app/conseil-expert/page.tsx`): three steps
    (vehicle, requested part, contact) gated by which fields are filled, and the
    consultation record the handlers edit. */
module ExpertPage {
  import opened Wrappers

  datatype VehicleInfo = VehicleInfo(brand: string, model: string, year: string, engine: string, vin: string)

  /** `keyof VehicleInfo` */
  datatype VehicleField = Brand | Model | Year | Engine | Vin

  datatype Urgency = LowUrgency | MediumUrgency | HighUrgency

  datatype ContactMethod = Phone | Email | Appointment

  /** The string value each contact method is stored as. */
  function ContactMethodName(m: ContactMethod): (s: string)
    ensures s != ""
  {
    match m
    case Phone => "phone"
    case Email => "email"
    case Appointment => "appointment"
  }

  datatype Consultation = Consultation(
    vehicleInfo: VehicleInfo,
    requestedPart: string,
    description: string,
    urgency: Urgency,
    contactMethod: ContactMethod,
    contactInfo: string)

  /** The initial record; `requestedPart` is the `name` query parameter, or empty
      when it is absent (`null`) or empty. */
  function InitialConsultation(nameParam: Option<string>): (c: Consultation)
    ensures c.vehicleInfo == VehicleInfo("", "", "", "", "")
    ensures c.requestedPart == (if nameParam.Some? then nameParam.value else "")
    ensures c.description == "" && c.contactInfo == ""
    ensures c.urgency == MediumUrgency && c.contactMethod == Phone
  {
    Consultation(VehicleInfo("", "", "", "", ""), nameParam.GetOr(""), "", MediumUrgency, Phone, "")
  }

  function GetVehicleField(v: VehicleInfo, f: VehicleField): string {
    match f
    case Brand => v.brand
    case Model => v.model
    case Year => v.year
    case Engine => v.engine
    case Vin => v.vin
  }

  /** `{ ...prev.vehicleInfo, [field]: value }` */
  function WithVehicleField(v: VehicleInfo, f: VehicleField, value: string): VehicleInfo {
    match f
    case Brand => v.(brand := value)
    case Model => v.(model := value)
    case Year => v.(year := value)
    case Engine => v.(engine := value)
    case Vin => v.(vin := value)
  }

  /** Setting a vehicle field changes that field and no other. */
  lemma WithVehicleFieldGet(v: VehicleInfo, f: VehicleField, value: string, g: VehicleField)
    ensures GetVehicleField(WithVehicleField(v, f, value), g) == if g == f then value else GetVehicleField(v, g)
  {
  }

  /** Writing back a field's own value changes nothing. */
  lemma WithVehicleFieldSame(v: VehicleInfo, f: VehicleField)
    ensures WithVehicleField(v, f, GetVehicleField(v, f)) == v
  {
  }

  /** `canProceedToStep2`: brand, model and year are all filled in. */
  predicate CanProceedToStep2(c: Consultation) {
    c.vehicleInfo.brand != "" && c.vehicleInfo.model != "" && c.vehicleInfo.year != ""
  }

  /** `canProceedToStep3`: the part and its description are filled in. */
  predicate CanProceedToStep3(c: Consultation) {
    c.requestedPart != "" && c.description != ""
  }

  /** `canSubmit`: contact details given and a contact method chosen. */
  predicate CanSubmit(c: Consultation) {
    c.contactInfo != "" && ContactMethodName(c.contactMethod) != ""
  }

  /** Every contact method is a non-empty string, so only the contact details matter. */
  lemma CanSubmitIffContactInfo(c: Consultation)
    ensures CanSubmit(c) <==> c.contactInfo != ""
  {
  }

  /** Engine and VIN are optional: they never affect step 2. */
  lemma OptionalFieldsDoNotGate(c: Consultation, f: VehicleField, value: string)
    requires f == Engine || f == Vin
    ensures CanProceedToStep2(c.(vehicleInfo := WithVehicleField(c.vehicleInfo, f, value))) == CanProceedToStep2(c)
  {
  }

  /** Arriving with a product name, step 3 needs only a description. */
  lemma NamedProductNeedsDescription(name: string, description: string)
    requires name != ""
    ensures CanProceedToStep3(InitialConsultation(Some(name)).(description := description)) <==> description != ""
  {
  }

  /** `Array.from({ length: 25 }, (_, i) => 2024 - i)` */
  function YearOptions(): (r: seq<int>)
    ensures |r| == 25
    ensures forall i :: 0 <= i < 25 ==> r[i] == 2024 - i
  {
    seq(25, i => 2024 - i)
  }

  /** The year list runs from 2024 down to 2000, strictly decreasing, and offers
      every year in between. */
  lemma YearOptionsRange()
    ensures YearOptions()[0] == 2024 && YearOptions()[24] == 2000
    ensures forall i, j :: 0 <= i < j < 25 ==> YearOptions()[i] > YearOptions()[j]
    ensures forall y :: 2000 <= y <= 2024 ==> y in YearOptions()
  {
    var r := YearOptions();
    forall y | 2000 <= y <= 2024 ensures y in r {
      assert r[2024 - y] == y;
    }
  }

  class ExpertState {
    var step: int
    var consultation: Consultation
    var isSubmitting: bool
    var isSubmitted: bool

    ghost predicate Valid()
      reads this
    {
      1 <= step <= 3
    }

    constructor (nameParam: Option<string>)
      ensures Valid()
      ensures step == 1 && consultation == InitialConsultation(nameParam)
      ensures !isSubmitting && !isSubmitted
    {
      step := 1;
      consultation := InitialConsultation(nameParam);
      isSubmitting := false;
      isSubmitted := false;
    }

    method HandleVehicleInfoChange(f: VehicleField, value: string)
      requires Valid()
      modifies this
      ensures Valid()
      ensures consultation == old(consultation).(vehicleInfo := WithVehicleField(old(consultation).vehicleInfo, f, value))
      ensures step == old(step) && isSubmitting == old(isSubmitting) && isSubmitted == old(isSubmitted)
    {
      consultation := consultation.(vehicleInfo := WithVehicleField(consultation.vehicleInfo, f, value));
    }

    method SetRequestedPart(value: string)
      requires Valid()
      modifies this
      ensures Valid()
      ensures consultation == old(consultation).(requestedPart := value)
      ensures step == old(step) && isSubmitting == old(isSubmitting) && isSubmitted == old(isSubmitted)
    {
      consultation := consultation.(requestedPart := value);
    }

    method SetDescription(value: string)
      requires Valid()
      modifies this
      ensures Valid()
      ensures consultation == old(consultation).(description := value)
      ensures step == old(step) && isSubmitting == old(isSubmitting) && isSubmitted == old(isSubmitted)
    {
      consultation := consultation.(description := value);
    }

    method SetUrgency(value: Urgency)
      requires Valid()
      modifies this
      ensures Valid()
      ensures consultation == old(consultation).(urgency := value)
      ensures step == old(step) && isSubmitting == old(isSubmitting) && isSubmitted == old(isSubmitted)
    {
      consultation := consultation.(urgency := value);
    }

    method SetContactMethod(value: ContactMethod)
      requires Valid()
      modifies this
      ensures Valid()
      ensures consultation == old(consultation).(contactMethod := value)
      ensures step == old(step) && isSubmitting == old(isSubmitting) && isSubmitted == old(isSubmitted)
    {
      consultation := consultation.(contactMethod := value);
    }

    method SetContactInfo(value: string)
      requires Valid()
      modifies this
      ensures Valid()
      ensures consultation == old(consultation).(contactInfo := value)
      ensures step == old(step) && isSubmitting == old(isSubmitting) && isSubmitted == old(isSubmitted)
    {
      consultation := consultation.(contactInfo := value);
    }

    /** The "next" button of step 1, disabled unless brand, model and year are set; the
        page renders it on step 1 only. */
    method ProceedToStep2()
      requires Valid() && step == 1
      modifies this
      ensures Valid()
      ensures step == if CanProceedToStep2(consultation) then 2 else old(step)
      ensures consultation == old(consultation) && isSubmitting == old(isSubmitting) && isSubmitted == old(isSubmitted)
    {
      if CanProceedToStep2(consultation) {
        step := 2;
      }
    }

    /** The "next" button of step 2, disabled unless part and description are set; the
        page renders it on step 2 only. */
    method ProceedToStep3()
      requires Valid() && step == 2
      modifies this
      ensures Valid()
      ensures step == if CanProceedToStep3(consultation) then 3 else old(step)
      ensures consultation == old(consultation) && isSubmitting == old(isSubmitting) && isSubmitted == old(isSubmitted)
    {
      if CanProceedToStep3(consultation) {
        step := 3;
      }
    }

    /** The "back" buttons: step 2 back to 1 and step 3 back to 2, always enabled,
        nothing cleared. */
    method BackTo(target: int)
      requires Valid() && ((step == 2 && target == 1) || (step == 3 && target == 2))
      modifies this
      ensures Valid()
      ensures step == target && step == old(step) - 1
      ensures consultation == old(consultation) && isSubmitting == old(isSubmitting) && isSubmitted == old(isSubmitted)
    {
      step := target;
    }

    /** `handleSubmit`, disabled unless submittable and not already submitting; the
        two-second wait is collapsed, so the request ends submitted and idle. */
    method HandleSubmit()
      requires Valid()
      modifies this
      ensures Valid()
      ensures CanSubmit(consultation) && !old(isSubmitting) ==> isSubmitted && !isSubmitting
      ensures !(CanSubmit(consultation) && !old(isSubmitting)) ==> isSubmitted == old(isSubmitted) && isSubmitting == old(isSubmitting)
      ensures consultation == old(consultation) && step == old(step)
    {
      if CanSubmit(consultation) && !isSubmitting {
        isSubmitting := true;
        isSubmitted := true;
        isSubmitting := false;
      }
    }
  }
}
